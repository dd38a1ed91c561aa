/**
 * Every run of the worker: deployments, resizes, demand starts, queries, exits and removals in any
 * order, with the query guards that are alive in between.
 */
module WorkerRuns {
  import opened Common
  import opened Meters
  import opened WorkerModel
  import opened WorkerInvariants
  import opened WorkerTheorems

  /** A live `QueryGuard`; `app` is the serial number of the app it was created for. */
  datatype Guard = Guard(address: Address, app: nat, instance: Option<nat>)

  /**
   * `idEnds` counts, per app, the guards that ended with an instance id; `staleEnds` the guards of
   * an earlier app at the same address that ended without one; `discarded` are the instances that
   * the end of a query took out.
   */
  datatype World = World(
    worker: Worker, guards: map<nat, Guard>, idEnds: map<nat, nat>, staleEnds: map<nat, nat>, discarded: set<nat>)

  datatype Step =
    | Deploy(a: Address, manifest: Manifest, reuse: bool)
    | Resize(a: Address, count: nat, demand: bool, victim: Address, r: Readings)
    | Increase(a: Address, victim: Address, r: Readings)
    | BeginQuery(guard: nat, a: Address, size: nat)
    | SetInstance(guard: nat, sn: nat)
    | EndQuery(guard: nat)
    | CleanUp(a: Address, sn: nat, r: Readings)
    | Remove(a: Address)
    | Clear

  ghost function Init(maxInstances: nat): World {
    World(Worker(map[], maxInstances, 0, 0, map[], []), map[], map[], map[], {})
  }

  ghost predicate Enabled(s: World, step: Step) {
    match step
    case Resize(a, _, demand, victim, _) => VictimOk(s.worker, a, demand, victim)
    case Increase(a, victim, _) => VictimOk(s.worker, a, true, victim)
    case BeginQuery(guard, _, _) => guard !in s.guards
    case SetInstance(guard, _) => guard in s.guards
    case EndQuery(guard) => guard in s.guards
    case _ => true
  }

  function Count(m: map<nat, nat>, k: nat): nat {
    if k in m then m[k] else 0
  }

  ghost function GuardBegun(s: World, guard: nat, a: Address, size: nat): World {
    var (w, res) := QueryBegun(s.worker, a, size);
    if res.Err? || a !in s.worker.apps then s
    else s.(worker := w, guards := s.guards[guard := Guard(a, s.worker.apps[a].sn, None)])
  }

  ghost function GuardEnded(s: World, guard: nat): World
    requires guard in s.guards
  {
    var g := s.guards[guard];
    var s1 := s.(worker := QueryEnded(s.worker, g.address, g.instance).0, guards := s.guards - {guard});
    if g.address !in s.worker.apps then s1
    else
      var current := s.worker.apps[g.address].sn;
      var s2 := s1.(discarded := s.discarded + TakenOut(s.worker, g.address, g.instance));
      if g.app == current && g.instance.Some? then s2.(idEnds := s.idEnds[current := Count(s.idEnds, current) + 1])
      else if g.app != current && g.instance.None? then s2.(staleEnds := s.staleEnds[current := Count(s.staleEnds, current) + 1])
      else s2
  }

  ghost function Apply(s: World, step: Step): World
    requires Enabled(s, step)
  {
    match step
    case Deploy(a, manifest, reuse) => s.(worker := Deployed(s.worker, a, manifest, reuse).0)
    case Resize(a, count, demand, victim, r) => s.(worker := Resized(s.worker, a, count, demand, victim, r).0)
    case Increase(a, victim, r) => s.(worker := Increased(s.worker, a, victim, r).0)
    case BeginQuery(guard, a, size) => GuardBegun(s, guard, a, size)
    case SetInstance(guard, sn) => s.(guards := s.guards[guard := s.guards[guard].(instance := Some(sn))])
    case EndQuery(guard) => GuardEnded(s, guard)
    case CleanUp(a, sn, r) => s.(worker := CleanedUp(s.worker, a, sn, r))
    case Remove(a) => s.(worker := Removed(s.worker, a).0)
    case Clear => s.(worker := s.worker.(apps := map[]))
  }

  ghost predicate IsRun(s: World, steps: seq<Step>)
    decreases |steps|
  {
    steps == [] || (Enabled(s, steps[0]) && IsRun(Apply(s, steps[0]), steps[1..]))
  }

  ghost function Exec(s: World, steps: seq<Step>): World
    requires IsRun(s, steps)
    decreases |steps|
  {
    if steps == [] then s else Exec(Apply(s, steps[0]), steps[1..])
  }

  ghost predicate Reachable(s: World, maxInstances: nat) {
    exists steps :: IsRun(Init(maxInstances), steps) && Exec(Init(maxInstances), steps) == s
  }

  lemma {:induction false} RunExtends(s: World, steps: seq<Step>, step: Step)
    requires IsRun(s, steps) && Enabled(Exec(s, steps), step)
    ensures IsRun(s, steps + [step]) && Exec(s, steps + [step]) == Apply(Exec(s, steps), step)
    decreases |steps|
  {
    hide Apply, Enabled;
    if steps == [] {
      assert [step][1..] == [];
    } else {
      RunExtends(Apply(s, steps[0]), steps[1..], step);
      assert (steps + [step])[1..] == steps[1..] + [step];
    }
  }

  lemma ReachableStep(s: World, maxInstances: nat, step: Step)
    requires Reachable(s, maxInstances) && Enabled(s, step)
    ensures Reachable(Apply(s, step), maxInstances)
  {
    var steps :| IsRun(Init(maxInstances), steps) && Exec(Init(maxInstances), steps) == s;
    RunExtends(Init(maxInstances), steps, step);
  }

  lemma ReachableInit(maxInstances: nat)
    ensures Reachable(Init(maxInstances), maxInstances)
  {
    assert IsRun(Init(maxInstances), []) && Exec(Init(maxInstances), []) == Init(maxInstances);
  }

  // The worker's own invariant

  lemma ShrinkKeepsInv(w: Worker, w': Worker)
    requires Inv(w)
    requires w'.apps.Keys <= w.apps.Keys
    requires w'.maxInstances == w.maxInstances && w'.nextApp == w.nextApp && w'.nextRun == w.nextRun
    requires w'.owner == w.owner && w'.log == w.log
    requires forall a :: a in w'.apps ==>
               && w'.apps[a].sn == w.apps[a].sn && w'.apps[a].manifest == w.apps[a].manifest
               && w'.apps[a].hist == w.apps[a].hist && w'.apps[a].instances <= w.apps[a].instances
    ensures Inv(w')
  {
    SlotsShrink(w.apps, w'.apps);
    assert forall i, s :: Owned(w, i, s) ==> Owned(w', i, s);
    forall k | 0 <= k < |w.log|
      ensures !Live(w', w.log[k].sn)
    {
      assert !Live(w, w.log[k].sn);
    }
  }

  lemma {:induction false} NoReadingsOfNewApp(log: seq<Folded>, app: nat)
    requires forall k :: 0 <= k < |log| ==> log[k].app < app
    ensures ReadingsOf(log, app) == []
  {
    if log != [] {
      NoReadingsOfNewApp(log[..|log| - 1], app);
    }
  }

  lemma DeployedKeepsLog(w: Worker, a: Address, m: Manifest, reuse: bool)
    requires OwnersOk(w) && LogOk(w)
    ensures OwnersOk(Deployed(w, a, m, reuse).0) && LogOk(Deployed(w, a, m, reuse).0)
  {
    var w' := Deployed(w, a, m, reuse).0;
    assert forall i, s :: Owned(w, i, s) ==> Owned(w', i, s);
    forall k | 0 <= k < |w.log|
      ensures !Live(w', w.log[k].sn)
    {
      assert !Live(w, w.log[k].sn);
    }
  }

  lemma DeployedKeepsApps(w: Worker, a: Address, m: Manifest, reuse: bool)
    requires AppsOk(w)
    ensures AppsOk(Deployed(w, a, m, reuse).0)
  {}

  lemma DeployedKeepsInv(w: Worker, a: Address, m: Manifest, reuse: bool)
    requires Inv(w)
    ensures Inv(Deployed(w, a, m, reuse).0)
  {
    DeployedKeepsLog(w, a, m, reuse);
    DeployedKeepsApps(w, a, m, reuse);
    NoReadingsOfNewApp(w.log, w.nextApp);
    assert Slots(Deployed(w, a, m, reuse).0.apps) == Slots(w.apps);
    hide OwnersOk, LogOk, AppsOk, ReadingsOf, ManifestOk, Slots;
    if !ManifestOk(m) {
    } else if a in w.apps {
    } else {
    }
  }

  lemma QueryKeepsInv(w: Worker, a: Address, size: nat, instance: Option<nat>)
    requires Inv(w)
    ensures Inv(QueryBegun(w, a, size).0)
    ensures Inv(QueryEnded(w, a, instance).0)
  {
    hide Inv;
    ShrinkKeepsInv(w, QueryBegun(w, a, size).0);
    ShrinkKeepsInv(w, QueryEnded(w, a, instance).0);
  }

  lemma StepKeepsInv(s: World, step: Step)
    requires Inv(s.worker) && Enabled(s, step)
    ensures Inv(Apply(s, step).worker)
  {
    hide Inv;
    match step {
      case Deploy(a, manifest, reuse) => DeployedKeepsInv(s.worker, a, manifest, reuse);
      case Resize(a, count, demand, victim, r) => ResizedKeepsInv(s.worker, a, count, demand, victim, r);
      case Increase(a, victim, r) => IncreasedKeepsInv(s.worker, a, victim, r);
      case BeginQuery(_, a, size) => QueryKeepsInv(s.worker, a, size, None);
      case SetInstance(_, _) =>
      case EndQuery(guard) => QueryKeepsInv(s.worker, s.guards[guard].address, 0, s.guards[guard].instance);
      case CleanUp(a, sn, r) =>
        if a in s.worker.apps && sn in s.worker.apps[a].instances {
          StoppedKeepsInv(s.worker, a, sn, r);
        }
      case Remove(a) => ShrinkKeepsInv(s.worker, Removed(s.worker, a).0);
      case Clear => ShrinkKeepsInv(s.worker, s.worker.(apps := map[]));
    }
  }

  lemma {:induction false} RunKeepsInv(s: World, steps: seq<Step>)
    requires Inv(s.worker) && IsRun(s, steps)
    ensures Inv(Exec(s, steps).worker)
    ensures Exec(s, steps).worker.maxInstances == s.worker.maxInstances
    decreases |steps|
  {
    hide Inv;
    if steps != [] {
      StepKeepsInv(s, steps[0]);
      StepKeepsLimit(s, steps[0]);
      RunKeepsInv(Apply(s, steps[0]), steps[1..]);
    }
  }

  lemma StepKeepsLimit(s: World, step: Step)
    requires Inv(s.worker) && Enabled(s, step)
    ensures Apply(s, step).worker.maxInstances == s.worker.maxInstances
  {
    hide Inv, Resized, Increased;
    match step {
      case Resize(a, count, demand, victim, r) => ResizedKeepsInv(s.worker, a, count, demand, victim, r);
      case Increase(a, victim, r) => IncreasedKeepsInv(s.worker, a, victim, r);
      case _ =>
    }
  }

  lemma ReachableInv(s: World, maxInstances: nat)
    requires Reachable(s, maxInstances)
    ensures Inv(s.worker) && s.worker.maxInstances == maxInstances
  {
    var steps :| IsRun(Init(maxInstances), steps) && Exec(Init(maxInstances), steps) == s;
    assert Inv(Init(maxInstances).worker) by {
      assert Slots(Init(maxInstances).worker.apps) == {};
    }
    RunKeepsInv(Init(maxInstances), steps);
  }

  /** In every run, all apps together never record more instances than there are slots. */
  lemma CapacityHolds(s: World, maxInstances: nat)
    requires Reachable(s, maxInstances)
    ensures Running(s.worker) <= maxInstances
  {
    ReachableInv(s, maxInstances);
  }

  /**
   * In every run, an instance is merged into a history at most once and only into the app it was
   * started for, and each app's history is exactly the merge of those readings.
   */
  lemma MergedAtMostOnce(s: World, maxInstances: nat)
    requires Reachable(s, maxInstances)
    ensures forall j, k :: 0 <= j < k < |s.worker.log| ==> s.worker.log[j].sn != s.worker.log[k].sn
    ensures forall k :: 0 <= k < |s.worker.log| ==>
              s.worker.log[k].sn in s.worker.owner && s.worker.owner[s.worker.log[k].sn] == s.worker.log[k].app
    ensures forall a :: a in s.worker.apps ==>
              s.worker.apps[a].hist == MergedAll(ZERO, ReadingsOf(s.worker.log, s.worker.apps[a].sn))
  {
    ReachableInv(s, maxInstances);
    hide MergedAll, ReadingsOf;
    forall k | 0 <= k < |s.worker.log|
      ensures s.worker.log[k].sn in s.worker.owner && s.worker.owner[s.worker.log[k].sn] == s.worker.log[k].app
    {
      assert Owned(s.worker, s.worker.log[k].sn, s.worker.log[k].app);
    }
  }

  // Query guards

  ghost function AliveOf(guards: map<nat, Guard>, app: nat): set<nat> {
    set g | g in guards && guards[g].app == app
  }

  /** Live guards, plus guards ended with an instance, minus stale guards that were charged to this app. */
  ghost function Balance(s: World, app: nat): int {
    |AliveOf(s.guards, app)| + Count(s.idEnds, app) - Count(s.staleEnds, app)
  }

  /** An integer as a `usize` holds it. */
  ghost function Wrapped(x: int): nat {
    x % U64_MODULUS
  }

  ghost predicate CountsOk(s: World) {
    forall a :: a in s.worker.apps ==> s.worker.apps[a].onGoingQueries == Wrapped(Balance(s, s.worker.apps[a].sn))
  }

  ghost predicate SerialsOk(s: World) {
    && (forall g :: g in s.guards ==> s.guards[g].app < s.worker.nextApp)
    && (forall k :: k in s.idEnds ==> k < s.worker.nextApp)
    && (forall k :: k in s.staleEnds ==> k < s.worker.nextApp)
  }

  /** A guard whose app is still deployed has that app's address. */
  ghost predicate HomesOk(s: World) {
    forall g, a :: g in s.guards && a in s.worker.apps && s.guards[g].app == s.worker.apps[a].sn ==> s.guards[g].address == a
  }

  ghost predicate GuardInv(s: World) {
    CountsOk(s) && SerialsOk(s) && HomesOk(s)
  }

  lemma WrapAround(x: int)
    ensures (Wrapped(x) + 1) % U64_MODULUS == Wrapped(x + 1)
    ensures Decremented(Wrapped(x)) == Wrapped(x - 1)
  {}

  lemma AliveAdd(guards: map<nat, Guard>, id: nat, g: Guard, app: nat)
    requires id !in guards
    ensures |AliveOf(guards[id := g], app)| == |AliveOf(guards, app)| + (if g.app == app then 1 else 0)
  {
    if g.app == app {
      assert AliveOf(guards[id := g], app) == AliveOf(guards, app) + {id};
    } else {
      assert AliveOf(guards[id := g], app) == AliveOf(guards, app);
    }
  }

  lemma AliveRemove(guards: map<nat, Guard>, id: nat, app: nat)
    requires id in guards
    ensures |AliveOf(guards - {id}, app)| == |AliveOf(guards, app)| - (if guards[id].app == app then 1 else 0)
  {
    if guards[id].app == app {
      assert AliveOf(guards - {id}, app) == AliveOf(guards, app) - {id};
      assert id in AliveOf(guards, app);
    } else {
      assert AliveOf(guards - {id}, app) == AliveOf(guards, app);
    }
  }

  lemma BeginKeepsCounts(s: World, guard: nat, a: Address, size: nat)
    requires AppsOk(s.worker) && CountsOk(s) && guard !in s.guards
    ensures CountsOk(GuardBegun(s, guard, a, size))
  {
    var s' := GuardBegun(s, guard, a, size);
    forall b | b in s'.worker.apps
      ensures s'.worker.apps[b].onGoingQueries == Wrapped(Balance(s', s'.worker.apps[b].sn))
    {
      var sn := s.worker.apps[b].sn;
      assert s.worker.apps[b].onGoingQueries == Wrapped(Balance(s, sn));
      assert b != a && a in s.worker.apps ==> s.worker.apps[a].sn != sn;
      WrapAround(Balance(s, sn));
      if a in s.worker.apps {
        AliveAdd(s.guards, guard, Guard(a, s.worker.apps[a].sn, None), sn);
      }
      hide Wrapped, AliveOf, AppsOk, CountsOk;
    }
  }

  lemma BeginKeepsHomes(s: World, guard: nat, a: Address, size: nat)
    requires AppsOk(s.worker) && SerialsOk(s) && HomesOk(s) && guard !in s.guards
    ensures SerialsOk(GuardBegun(s, guard, a, size)) && HomesOk(GuardBegun(s, guard, a, size))
  {}

  /** The app at the guard's address. */
  lemma EndCountsHere(s: World, guard: nat)
    requires CountsOk(s) && guard in s.guards && s.guards[guard].address in s.worker.apps
    ensures var s', a := GuardEnded(s, guard), s.guards[guard].address;
            && a in s'.worker.apps && s'.worker.apps[a].sn == s.worker.apps[a].sn
            && s'.worker.apps[a].onGoingQueries == Wrapped(Balance(s', s.worker.apps[a].sn))
  {
    var sn := s.worker.apps[s.guards[guard].address].sn;
    AliveRemove(s.guards, guard, sn);
    WrapAround(Balance(s, sn));
    assert s.worker.apps[s.guards[guard].address].onGoingQueries == Wrapped(Balance(s, sn));
    hide AliveOf, Wrapped, Decremented, CountsOk;
  }

  /** Any other app. */
  lemma EndCountsElsewhere(s: World, guard: nat, b: Address)
    requires AppsOk(s.worker) && HomesOk(s) && guard in s.guards && b in s.worker.apps && s.guards[guard].address != b
    ensures var s' := GuardEnded(s, guard);
            && b in s'.worker.apps && s'.worker.apps[b] == s.worker.apps[b]
            && Balance(s', s.worker.apps[b].sn) == Balance(s, s.worker.apps[b].sn)
  {
    var g, sn := s.guards[guard], s.worker.apps[b].sn;
    AliveRemove(s.guards, guard, sn);
    assert g.app != sn;
    assert g.address in s.worker.apps ==> s.worker.apps[g.address].sn != sn;
    hide AliveOf, AppsOk, HomesOk, Decremented;
  }

  /** Ending a query changes instances and counter of at most one app, and no app's identity. */
  lemma EndKeepsApps(w: Worker, a: Address, instance: Option<nat>)
    ensures var w' := QueryEnded(w, a, instance).0;
            && w'.apps.Keys == w.apps.Keys && w'.nextApp == w.nextApp
            && (forall b :: b in w.apps ==> w'.apps[b].sn == w.apps[b].sn)
  {}

  lemma EndKeepsSerials(s: World, guard: nat)
    requires AppsOk(s.worker) && SerialsOk(s) && guard in s.guards
    ensures SerialsOk(GuardEnded(s, guard))
  {
    EndKeepsApps(s.worker, s.guards[guard].address, s.guards[guard].instance);
    hide QueryEnded, TakenOut, ManifestOk;
  }

  lemma EndKeepsHomes(s: World, guard: nat)
    requires AppsOk(s.worker) && SerialsOk(s) && HomesOk(s) && guard in s.guards
    ensures var s' := GuardEnded(s, guard);
            SerialsOk(s') && HomesOk(s') && s'.worker.apps.Keys == s.worker.apps.Keys
  {
    EndKeepsSerials(s, guard);
    EndKeepsApps(s.worker, s.guards[guard].address, s.guards[guard].instance);
    hide QueryEnded, TakenOut, SerialsOk, AppsOk;
  }

  lemma EndKeepsCounts(s: World, guard: nat)
    requires AppsOk(s.worker) && GuardInv(s) && guard in s.guards
    ensures CountsOk(GuardEnded(s, guard))
  {
    EndKeepsHomes(s, guard);
    var s' := GuardEnded(s, guard);
    forall b | b in s'.worker.apps
      ensures s'.worker.apps[b].onGoingQueries == Wrapped(Balance(s', s'.worker.apps[b].sn))
    {
      assert s.worker.apps[b].onGoingQueries == Wrapped(Balance(s, s.worker.apps[b].sn));
      if b == s.guards[guard].address {
        EndCountsHere(s, guard);
      } else {
        EndCountsElsewhere(s, guard, b);
      }
      hide GuardEnded, Balance, Wrapped, AppsOk, GuardInv;
    }
  }

  /** Steps that only move instances leave guards and counters alone. */
  lemma SameAppsKeepsGuards(s: World, w: Worker)
    requires GuardInv(s) && SameApps(s.worker, w)
    ensures GuardInv(s.(worker := w))
  {
    var s' := s.(worker := w);
    assert forall app :: Balance(s', app) == Balance(s, app);
  }

  lemma DeployKeepsCounts(s: World, a: Address, m: Manifest, reuse: bool)
    requires CountsOk(s) && SerialsOk(s)
    ensures CountsOk(s.(worker := Deployed(s.worker, a, m, reuse).0))
  {
    var s' := s.(worker := Deployed(s.worker, a, m, reuse).0);
    assert AliveOf(s.guards, s.worker.nextApp) == {};
    assert Balance(s', s.worker.nextApp) == 0;
    assert forall app :: Balance(s', app) == Balance(s, app);
    hide AliveOf, SerialsOk, ManifestOk;
  }

  lemma DeployKeepsHomes(s: World, a: Address, m: Manifest, reuse: bool)
    requires SerialsOk(s) && HomesOk(s)
    ensures SerialsOk(s.(worker := Deployed(s.worker, a, m, reuse).0))
    ensures HomesOk(s.(worker := Deployed(s.worker, a, m, reuse).0))
  {
    hide ManifestOk;
  }

  lemma SetKeepsGuards(s: World, guard: nat, sn: nat)
    requires GuardInv(s) && guard in s.guards
    ensures GuardInv(s.(guards := s.guards[guard := s.guards[guard].(instance := Some(sn))]))
  {
    var s' := s.(guards := s.guards[guard := s.guards[guard].(instance := Some(sn))]);
    forall app
      ensures Balance(s', app) == Balance(s, app)
    {
      assert AliveOf(s'.guards, app) == AliveOf(s.guards, app);
    }
  }

  lemma FewerAppsKeepsGuards(s: World, apps: map<Address, App>)
    requires GuardInv(s)
    requires apps.Keys <= s.worker.apps.Keys && forall a :: a in apps ==> apps[a] == s.worker.apps[a]
    ensures GuardInv(s.(worker := s.worker.(apps := apps)))
  {
    var s' := s.(worker := s.worker.(apps := apps));
    assert forall app :: Balance(s', app) == Balance(s, app);
  }

  lemma CleanUpKeepsGuards(s: World, a: Address, sn: nat, r: Readings)
    requires GuardInv(s)
    ensures GuardInv(s.(worker := CleanedUp(s.worker, a, sn, r)))
  {
    hide GuardInv, Stopped;
    if a in s.worker.apps {
      StoppedOnlyApp(s.worker, a, sn, r);
      SameAppsKeepsGuards(s, Stopped(s.worker, a, sn, r));
    }
  }

  lemma RemoveKeepsGuards(s: World, a: Address)
    requires GuardInv(s)
    ensures GuardInv(s.(worker := Removed(s.worker, a).0))
  {
    hide GuardInv;
    if a in s.worker.apps {
      FewerAppsKeepsGuards(s, s.worker.apps - {a});
    }
  }

  lemma ResizeKeepsGuards(s: World, a: Address, count: nat, demand: bool, victim: Address, r: Readings)
    requires GuardInv(s) && Inv(s.worker) && VictimOk(s.worker, a, demand, victim)
    ensures GuardInv(s.(worker := Resized(s.worker, a, count, demand, victim, r).0))
  {
    ResizedKeepsInv(s.worker, a, count, demand, victim, r);
    hide Inv, GuardInv, Resized;
    SameAppsKeepsGuards(s, Resized(s.worker, a, count, demand, victim, r).0);
  }

  lemma GuardStepKeepsGuards(s: World, step: Step)
    requires GuardInv(s) && AppsOk(s.worker) && Enabled(s, step)
    requires step.BeginQuery? || step.SetInstance? || step.EndQuery?
    ensures GuardInv(Apply(s, step))
  {
    hide AppsOk, CountsOk, SerialsOk, HomesOk, GuardBegun, GuardEnded;
    match step {
      case BeginQuery(guard, a, size) =>
        BeginKeepsCounts(s, guard, a, size);
        BeginKeepsHomes(s, guard, a, size);
      case SetInstance(guard, sn) => SetKeepsGuards(s, guard, sn);
      case EndQuery(guard) =>
        EndKeepsCounts(s, guard);
        EndKeepsHomes(s, guard);
    }
  }

  lemma StepKeepsGuards(s: World, step: Step)
    requires GuardInv(s) && Inv(s.worker) && Enabled(s, step)
    ensures GuardInv(Apply(s, step))
  {
    assert AppsOk(s.worker);
    hide Inv, AppsOk, CountsOk, SerialsOk, HomesOk, Resized, Increased, Deployed, CleanedUp, Removed;
    match step {
      case Deploy(a, manifest, reuse) =>
        DeployKeepsCounts(s, a, manifest, reuse);
        DeployKeepsHomes(s, a, manifest, reuse);
      case Resize(a, count, demand, victim, r) => ResizeKeepsGuards(s, a, count, demand, victim, r);
      case Increase(a, victim, r) =>
        IncreasedKeepsInv(s.worker, a, victim, r);
        SameAppsKeepsGuards(s, Increased(s.worker, a, victim, r).0);
      case BeginQuery(_, _, _) => GuardStepKeepsGuards(s, step);
      case SetInstance(_, _) => GuardStepKeepsGuards(s, step);
      case EndQuery(_) => GuardStepKeepsGuards(s, step);
      case CleanUp(a, sn, r) => CleanUpKeepsGuards(s, a, sn, r);
      case Remove(a) => RemoveKeepsGuards(s, a);
      case Clear => FewerAppsKeepsGuards(s, map[]);
    }
  }

  lemma {:induction false} RunKeepsGuards(s: World, steps: seq<Step>)
    requires GuardInv(s) && Inv(s.worker) && IsRun(s, steps)
    ensures GuardInv(Exec(s, steps))
    decreases |steps|
  {
    hide Inv, GuardInv;
    if steps != [] {
      StepKeepsInv(s, steps[0]);
      StepKeepsGuards(s, steps[0]);
      RunKeepsGuards(Apply(s, steps[0]), steps[1..]);
    }
  }

  lemma ReachableGuards(s: World, maxInstances: nat)
    requires Reachable(s, maxInstances)
    ensures GuardInv(s)
  {
    var steps :| IsRun(Init(maxInstances), steps) && Exec(Init(maxInstances), steps) == s;
    assert Inv(Init(maxInstances).worker) by {
      assert Slots(Init(maxInstances).worker.apps) == {};
    }
    RunKeepsGuards(Init(maxInstances), steps);
  }

  /**
   * In every run the counter of an app is its live guards plus its guards ended with an instance,
   * exactly as long as no guard of an earlier app at the address was charged to it.
   */
  lemma CountedIffNeverCharged(s: World, maxInstances: nat, a: Address)
    requires Reachable(s, maxInstances) && a in s.worker.apps
    requires |AliveOf(s.guards, s.worker.apps[a].sn)| + Count(s.idEnds, s.worker.apps[a].sn) < U64_MODULUS
    requires Count(s.staleEnds, s.worker.apps[a].sn) < U64_MODULUS
    ensures var sn := s.worker.apps[a].sn;
            s.worker.apps[a].onGoingQueries == |AliveOf(s.guards, sn)| + Count(s.idEnds, sn) <==> Count(s.staleEnds, sn) == 0
  {
    ReachableGuards(s, maxInstances);
  }

  // Calm runs

  ghost predicate Redeploys(s: World, step: Step) {
    step.Deploy? && Deployed(s.worker, step.a, step.manifest, step.reuse).1.Ok?
  }

  /** An address is deployed only when every guard that is left there has an instance of its own. */
  ghost predicate Calm(s: World, step: Step) {
    Redeploys(s, step) ==>
      forall g :: g in s.guards && s.guards[g].address == step.a ==> s.guards[g].instance.Some?
  }

  ghost predicate CalmRun(s: World, steps: seq<Step>)
    requires IsRun(s, steps)
    decreases |steps|
  {
    steps == [] || (Calm(s, steps[0]) && CalmRun(Apply(s, steps[0]), steps[1..]))
  }

  /** A guard without an instance at a deployed address belongs to the app that is there. */
  ghost predicate NoStaleGuard(s: World) {
    && s.staleEnds == map[]
    && forall g :: g in s.guards && s.guards[g].instance.None? && s.guards[g].address in s.worker.apps ==>
         s.guards[g].app == s.worker.apps[s.guards[g].address].sn
  }

  /** Apps may go, but those that stay keep their serial numbers. */
  ghost predicate SameSerials(w: Worker, w': Worker) {
    w'.apps.Keys <= w.apps.Keys && forall a :: a in w'.apps ==> w'.apps[a].sn == w.apps[a].sn
  }

  lemma SerialsKeepCalm(s: World, w: Worker)
    requires NoStaleGuard(s) && SameSerials(s.worker, w)
    ensures NoStaleGuard(s.(worker := w))
  {}

  lemma WorkerStepKeepsSerials(s: World, step: Step)
    requires Inv(s.worker) && Enabled(s, step)
    requires !Redeploys(s, step) && !step.BeginQuery? && !step.SetInstance? && !step.EndQuery?
    ensures SameSerials(s.worker, Apply(s, step).worker)
    ensures Apply(s, step) == s.(worker := Apply(s, step).worker)
  {
    hide Inv, Resized, Increased, ManifestOk;
    match step {
      case Resize(a, count, demand, victim, r) => ResizedKeepsInv(s.worker, a, count, demand, victim, r);
      case Increase(a, victim, r) => IncreasedKeepsInv(s.worker, a, victim, r);
      case _ =>
    }
  }

  lemma GuardStepKeepsCalm(s: World, step: Step)
    requires NoStaleGuard(s) && Enabled(s, step)
    requires step.BeginQuery? || step.SetInstance? || step.EndQuery?
    ensures NoStaleGuard(Apply(s, step))
  {
    if step.EndQuery? {
      EndKeepsApps(s.worker, s.guards[step.guard].address, s.guards[step.guard].instance);
      hide QueryEnded, TakenOut;
    }
  }

  lemma StepKeepsCalm(s: World, step: Step)
    requires NoStaleGuard(s) && Inv(s.worker) && Enabled(s, step) && Calm(s, step)
    ensures NoStaleGuard(Apply(s, step))
  {
    if step.BeginQuery? || step.SetInstance? || step.EndQuery? {
      GuardStepKeepsCalm(s, step);
    } else if !Redeploys(s, step) {
      WorkerStepKeepsSerials(s, step);
      SerialsKeepCalm(s, Apply(s, step).worker);
    } else {
      hide Inv, ManifestOk;
    }
  }

  lemma {:induction false} RunKeepsCalm(s: World, steps: seq<Step>)
    requires NoStaleGuard(s) && Inv(s.worker) && IsRun(s, steps) && CalmRun(s, steps)
    ensures NoStaleGuard(Exec(s, steps))
    decreases |steps|
  {
    hide Inv, NoStaleGuard, Calm, Apply, Enabled;
    if steps != [] {
      StepKeepsInv(s, steps[0]);
      StepKeepsCalm(s, steps[0]);
      RunKeepsCalm(Apply(s, steps[0]), steps[1..]);
    }
  }

  lemma CalmRunFacts(maxInstances: nat, steps: seq<Step>)
    requires IsRun(Init(maxInstances), steps) && CalmRun(Init(maxInstances), steps)
    ensures GuardInv(Exec(Init(maxInstances), steps)) && NoStaleGuard(Exec(Init(maxInstances), steps))
  {
    var s := Exec(Init(maxInstances), steps);
    assert Reachable(s, maxInstances);
    ReachableGuards(s, maxInstances);
    assert Inv(Init(maxInstances).worker) by {
      ReachableInit(maxInstances);
      ReachableInv(Init(maxInstances), maxInstances);
    }
    RunKeepsCalm(Init(maxInstances), steps);
  }

  /** In every calm run the counter of an app is its live guards plus its guards ended with an instance. */
  lemma GuardsAreCounted(maxInstances: nat, steps: seq<Step>, a: Address)
    requires IsRun(Init(maxInstances), steps) && CalmRun(Init(maxInstances), steps)
    requires var s := Exec(Init(maxInstances), steps);
             && a in s.worker.apps
             && |AliveOf(s.guards, s.worker.apps[a].sn)| + Count(s.idEnds, s.worker.apps[a].sn) < U64_MODULUS
    ensures var s := Exec(Init(maxInstances), steps);
            var sn := s.worker.apps[a].sn;
            s.worker.apps[a].onGoingQueries == |AliveOf(s.guards, sn)| + Count(s.idEnds, sn)
  {
    CalmRunFacts(maxInstances, steps);
    hide GuardInv, Exec, IsRun, CalmRun;
    ExactCount(Exec(Init(maxInstances), steps), a);
  }

  /**
   * In every calm run, ending a query never underflows the counter, and it clears an on-demand app
   * exactly when no other guard is alive and none has ended with an instance.
   */
  lemma EndQueryClearsIff(maxInstances: nat, steps: seq<Step>, guard: nat)
    requires IsRun(Init(maxInstances), steps) && CalmRun(Init(maxInstances), steps)
    requires var s := Exec(Init(maxInstances), steps);
             && guard in s.guards && s.guards[guard].instance == None && s.guards[guard].address in s.worker.apps
             && |AliveOf(s.guards, s.guards[guard].app)| + Count(s.idEnds, s.guards[guard].app) < U64_MODULUS
    ensures var s := Exec(Init(maxInstances), steps);
            var a := s.guards[guard].address;
            var app, app' := s.worker.apps[a], QueryEnded(s.worker, a, None).0.apps[a];
            && app.onGoingQueries > 0 && app'.onGoingQueries == app.onGoingQueries - 1
            && app'.instances == if app.manifest.onDemand && AliveOf(s.guards, app.sn) == {guard} && Count(s.idEnds, app.sn) == 0
                                 then {} else app.instances
  {
    CalmRunFacts(maxInstances, steps);
    var s := Exec(Init(maxInstances), steps);
    hide GuardInv, AliveOf, Exec, IsRun, CalmRun;
    assert s.guards[guard].app == s.worker.apps[s.guards[guard].address].sn;
    ExactCount(s, s.guards[guard].address);
    AliveSingleton(s.guards, guard);
  }

  lemma ExactCount(s: World, a: Address)
    requires GuardInv(s) && a in s.worker.apps
    requires Count(s.staleEnds, s.worker.apps[a].sn) == 0
    requires |AliveOf(s.guards, s.worker.apps[a].sn)| + Count(s.idEnds, s.worker.apps[a].sn) < U64_MODULUS
    ensures s.worker.apps[a].onGoingQueries == |AliveOf(s.guards, s.worker.apps[a].sn)| + Count(s.idEnds, s.worker.apps[a].sn)
  {}

  lemma AliveSingleton(guards: map<nat, Guard>, guard: nat)
    requires guard in guards
    ensures var alive := AliveOf(guards, guards[guard].app);
            |alive| >= 1 && (|alive| == 1 <==> alive == {guard})
  {
    var alive := AliveOf(guards, guards[guard].app);
    assert guard in alive && alive == {guard} + (alive - {guard});
  }

  /** The counter of the app at `a` after a deployment there and the end of one guard. */
  ghost function CounterAfter(s: World, deploy: Step, guard: nat): nat
    requires Redeploys(s, deploy) && guard in s.guards
  {
    var w := Deployed(s.worker, deploy.a, deploy.manifest, deploy.reuse).0;
    QueryEnded(w, s.guards[guard].address, s.guards[guard].instance).0.apps[deploy.a].onGoingQueries
  }

  /** A deployment is calm if and only if no guard that is left can then end on the new app and wrap its counter. */
  lemma CalmIff(s: World, deploy: Step)
    requires Redeploys(s, deploy)
    ensures Calm(s, deploy) <==> forall g :: g in s.guards ==> CounterAfter(s, deploy, g) == 0
    ensures forall g :: g in s.guards ==> CounterAfter(s, deploy, g) in {0, U64_MODULUS - 1}
  {
    hide ManifestOk;
    forall g | g in s.guards
      ensures CounterAfter(s, deploy, g) ==
              if s.guards[g].address == deploy.a && s.guards[g].instance.None? then U64_MODULUS - 1 else 0
    {}
  }

  /** A guard that outlives its app and ends on the next app at the address wraps that app's counter. */
  lemma StaleGuardUnderflows(m: Manifest)
    requires ManifestOk(m)
    ensures exists s, guard :: Reachable(s, 1) && Enabled(s, EndQuery(guard)) && 0 in s.worker.apps
              && s.worker.apps[0].onGoingQueries == 0
              && 0 in Apply(s, EndQuery(guard)).worker.apps
              && Apply(s, EndQuery(guard)).worker.apps[0].onGoingQueries == U64_MODULUS - 1
  {
    ReachableInit(1);
    var s1 := Apply(Init(1), Deploy(0, m, true));
    ReachableStep(Init(1), 1, Deploy(0, m, true));
    var s2 := Apply(s1, BeginQuery(7, 0, 0));
    ReachableStep(s1, 1, BeginQuery(7, 0, 0));
    var s3 := Apply(s2, Remove(0));
    ReachableStep(s2, 1, Remove(0));
    var s4 := Apply(s3, Deploy(0, m, true));
    ReachableStep(s3, 1, Deploy(0, m, true));
    hide Reachable, ManifestOk;
    assert Enabled(s4, EndQuery(7));
  }

  /** Ending the only query of a running on-demand app takes its instance out and loses the reading. */
  lemma IdleClearLosesReading(m: Manifest)
    requires ManifestOk(m) && m.onDemand
    ensures exists s, guard, r: Readings :: Reachable(s, 1) && guard in s.guards && s.guards[guard] == Guard(0, 0, None)
              && 0 in s.worker.apps && 0 in QueryEnded(s.worker, 0, None).0.apps
              && MetricsOf(QueryEnded(s.worker, 0, None).0, 0, r) != MetricsOf(s.worker, 0, r)
  {
    ReachableInit(1);
    var zero: Readings := _ => ZERO;
    var s1 := Apply(Init(1), Deploy(0, m, true));
    ReachableStep(Init(1), 1, Deploy(0, m, true));
    var s2 := Apply(s1, BeginQuery(7, 0, 0));
    ReachableStep(s1, 1, BeginQuery(7, 0, 0));
    var s3 := Apply(s2, Resize(0, 1, true, 0, zero));
    assert Slots(s2.worker.apps) == {};
    ReachableStep(s2, 1, Resize(0, 1, true, 0, zero));
    hide Reachable, ManifestOk;
    assert StartedN(s2.worker, 0, 0, true) == (s2.worker, Ok([]));
    assert s3.worker.apps[0].instances == {0} && s3.worker.apps[0].onGoingQueries == 1;
    EndQueryConservesIff(s3.worker, 0, None);
    var r: Readings :| MetricsOf(QueryEnded(s3.worker, 0, None).0, 0, r) != MetricsOf(s3.worker, 0, r);
    assert s3.guards[7] == Guard(0, 0, None);
  }
}
