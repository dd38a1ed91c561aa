/**
 * Where every instance of a deployed app has gone: it is live, merged into the app's history, or was
 * taken out by the end of a query.
 */
module WorkerAccounts {
  import opened Common
  import opened WorkerModel
  import opened WorkerInvariants
  import opened WorkerTheorems
  import opened WorkerRuns

  ghost predicate InLog(log: seq<Folded>, sn: nat) {
    exists k :: 0 <= k < |log| && log[k].sn == sn
  }

  /** No instance of a deployed app is missing. */
  ghost predicate Covered(w: Worker, discarded: set<nat>) {
    forall a, i :: a in w.apps && i in w.owner && w.owner[i] == w.apps[a].sn ==>
      i in w.apps[a].instances || InLog(w.log, i) || i in discarded
  }

  /** What was discarded is neither live nor merged. */
  ghost predicate Apart(w: Worker, discarded: set<nat>) {
    forall i :: i in discarded ==> i in w.owner && !Live(w, i) && !InLog(w.log, i)
  }

  ghost predicate OwnersBounded(w: Worker) {
    forall i :: i in w.owner ==> w.owner[i] < w.nextApp
  }

  ghost predicate AccountsOk(w: Worker, discarded: set<nat>) {
    Covered(w, discarded) && Apart(w, discarded) && OwnersBounded(w)
  }

  lemma InLogSnoc(log: seq<Folded>, f: Folded, sn: nat)
    ensures InLog(log + [f], sn) <==> InLog(log, sn) || sn == f.sn
  {
    if InLog(log, sn) {
      var k :| 0 <= k < |log| && log[k].sn == sn;
      assert (log + [f])[k] == log[k];
    }
    assert (log + [f])[|log|] == f;
  }

  lemma StartedKeepsAccounts(w: Worker, a: Address, demand: bool, discarded: set<nat>)
    requires AppsOk(w) && OwnersOk(w) && AccountsOk(w, discarded)
    ensures AccountsOk(Started(w, a, demand).0, discarded)
  {
    var w' := Started(w, a, demand).0;
    hide InLog;
    forall i | i in discarded
      ensures !Live(w', i)
    {
      assert !Live(w, i) && i < w.nextRun;
    }
  }

  lemma StoppedKeepsAccounts(w: Worker, a: Address, sn: nat, r: Readings, discarded: set<nat>)
    requires AccountsOk(w, discarded) && a in w.apps && sn in w.apps[a].instances
    ensures AccountsOk(Stopped(w, a, sn, r), discarded)
  {
    var w' := Stopped(w, a, sn, r);
    forall i
      ensures InLog(w'.log, i) <==> InLog(w.log, i) || i == sn
    {
      InLogSnoc(w.log, Folded(sn, w.apps[a].sn, r(sn)), i);
    }
    hide InLog;
    assert Live(w, sn);
    forall i | i in discarded
      ensures !Live(w', i) && i != sn
    {
      assert !Live(w, i);
    }
  }

  lemma {:induction false} StartedNKeepsAccounts(w: Worker, a: Address, n: nat, demand: bool, discarded: set<nat>)
    requires Inv(w) && n <= Available(w) && a in w.apps && AccountsOk(w, discarded)
    ensures AccountsOk(StartedN(w, a, n, demand).0, discarded)
  {
    hide AccountsOk, Started, Available;
    if n > 0 {
      StartedNKeepsAccounts(w, a, n - 1, demand, discarded);
      StartedNKeepsInv(w, a, n - 1, demand);
      StartedKeepsAccounts(StartedN(w, a, n - 1, demand).0, a, demand, discarded);
    }
  }

  lemma {:induction false} StoppedNKeepsAccounts(w: Worker, a: Address, n: nat, r: Readings, discarded: set<nat>)
    requires a in w.apps && n <= |w.apps[a].instances| && AccountsOk(w, discarded)
    ensures AccountsOk(StoppedN(w, a, n, r).0, discarded)
  {
    hide AccountsOk, Stopped;
    if n > 0 {
      StoppedNKeepsAccounts(w, a, n - 1, r, discarded);
      var w1 := StoppedN(w, a, n - 1, r).0;
      StoppedKeepsAccounts(w1, a, MaxOf(w1.apps[a].instances), r, discarded);
    }
  }

  lemma AdjustedKeepsAccounts(w: Worker, a: Address, count: nat, demand: bool, r: Readings, discarded: set<nat>)
    requires Inv(w) && AccountsOk(w, discarded)
    ensures AccountsOk(Adjusted(w, a, count, demand, r).0, discarded)
  {
    hide Inv, AccountsOk, Available, StartedN, StoppedN;
    if a in w.apps {
      var current := |w.apps[a].instances|;
      if current < count {
        StartedNKeepsAccounts(w, a, Min(Available(w), count - current), demand, discarded);
      } else {
        StoppedNKeepsAccounts(w, a, current - count, r, discarded);
      }
    }
  }

  lemma ResizedKeepsAccounts(w: Worker, a: Address, count: nat, demand: bool, victim: Address, r: Readings, discarded: set<nat>)
    requires Inv(w) && VictimOk(w, a, demand, victim) && AccountsOk(w, discarded)
    ensures AccountsOk(Resized(w, a, count, demand, victim, r).0, discarded)
  {
    hide Inv, AccountsOk, Adjusted, Stopped;
    if demand {
      ReservedKeepsInv(w, a, victim, r);
      if MustEvict(w, a) && Candidates(w) != {} {
        StoppedKeepsAccounts(w, victim, MaxOf(w.apps[victim].instances), r, discarded);
      }
      AdjustedKeepsAccounts(Reserved(w, a, victim, r).0, a, count, demand, r, discarded);
    } else {
      AdjustedKeepsAccounts(w, a, count, demand, r, discarded);
    }
  }

  /** Apps go, or lose the instances in `more`, which are then accounted for as discarded. */
  lemma ShrinkKeepsAccounts(w: Worker, w': Worker, discarded: set<nat>, more: set<nat>)
    requires OwnersOk(w) && LogOk(w) && AccountsOk(w, discarded)
    requires w'.owner == w.owner && w'.log == w.log && w'.nextApp == w.nextApp
    requires w'.apps.Keys <= w.apps.Keys
    requires forall a :: a in w'.apps ==>
               && w'.apps[a].sn == w.apps[a].sn
               && w'.apps[a].instances <= w.apps[a].instances <= w'.apps[a].instances + more
    requires forall i :: i in more ==> Live(w, i) && !Live(w', i)
    ensures AccountsOk(w', discarded + more)
  {
    hide InLog;
    forall i | i in discarded + more
      ensures i in w.owner && !Live(w', i) && !InLog(w.log, i)
    {
      if i in more {
        LiveIsNotMerged(w, i);
      } else {
        assert !Live(w, i);
      }
    }
  }

  lemma LiveIsNotMerged(w: Worker, i: nat)
    requires OwnersOk(w) && LogOk(w) && Live(w, i)
    ensures i in w.owner && !InLog(w.log, i)
  {
    var a :| a in w.apps && i in w.apps[a].instances;
    assert Owned(w, i, w.apps[a].sn);
  }

  /** No other app holds what the end of a query takes out. */
  lemma TakenOutIsNotLive(w: Worker, a: Address, instance: Option<nat>, i: nat)
    requires AppsOk(w) && OwnersOk(w) && a in w.apps && i in TakenOut(w, a, instance)
    ensures Live(w, i) && !Live(QueryEnded(w, a, instance).0, i)
  {
    var w' := QueryEnded(w, a, instance).0;
    assert i in w.apps[a].instances && i !in w'.apps[a].instances;
    forall b | b in w'.apps
      ensures i !in w'.apps[b].instances
    {
      if b != a {
        assert w'.apps[b] == w.apps[b];
        assert i in w.apps[b].instances ==> Owned(w, i, w.apps[a].sn) && Owned(w, i, w.apps[b].sn);
      }
    }
  }

  /** The same apps or fewer, with the same instances. */
  lemma FewerAppsKeepAccounts(w: Worker, w': Worker, discarded: set<nat>)
    requires OwnersOk(w) && LogOk(w) && AccountsOk(w, discarded)
    requires w'.owner == w.owner && w'.log == w.log && w'.nextApp == w.nextApp
    requires w'.apps.Keys <= w.apps.Keys
    requires forall a :: a in w'.apps ==> w'.apps[a].sn == w.apps[a].sn && w'.apps[a].instances == w.apps[a].instances
    ensures AccountsOk(w', discarded)
  {
    ShrinkKeepsAccounts(w, w', discarded, {});
    assert discarded + {} == discarded;
  }

  lemma EndedKeepsAccounts(w: Worker, a: Address, instance: Option<nat>, discarded: set<nat>)
    requires AppsOk(w) && OwnersOk(w) && LogOk(w) && AccountsOk(w, discarded) && a in w.apps
    ensures AccountsOk(QueryEnded(w, a, instance).0, discarded + TakenOut(w, a, instance))
  {
    var w', more := QueryEnded(w, a, instance).0, TakenOut(w, a, instance);
    forall i | i in more
      ensures Live(w, i) && !Live(w', i)
    {
      TakenOutIsNotLive(w, a, instance, i);
    }
    EndKeepsApps(w, a, instance);
    hide AccountsOk, Live, AppsOk, OwnersOk, LogOk;
    ShrinkKeepsAccounts(w, w', discarded, more);
  }

  lemma EndKeepsAccounts(s: World, guard: nat)
    requires Inv(s.worker) && AccountsOk(s.worker, s.discarded) && guard in s.guards
    ensures var s' := GuardEnded(s, guard); AccountsOk(s'.worker, s'.discarded)
  {
    var g := s.guards[guard];
    hide AccountsOk, AppsOk, OwnersOk, LogOk, HistoryOk, TakenOut;
    if g.address in s.worker.apps {
      EndedKeepsAccounts(s.worker, g.address, g.instance, s.discarded);
      hide QueryEnded;
    }
  }

  lemma BeginKeepsAccounts(s: World, guard: nat, a: Address, size: nat)
    requires OwnersOk(s.worker) && LogOk(s.worker) && AccountsOk(s.worker, s.discarded)
    ensures var s' := GuardBegun(s, guard, a, size); AccountsOk(s'.worker, s'.discarded)
  {
    hide AccountsOk, OwnersOk, LogOk;
    FewerAppsKeepAccounts(s.worker, QueryBegun(s.worker, a, size).0, s.discarded);
  }

  lemma RemoveKeepsAccounts(w: Worker, a: Address, discarded: set<nat>)
    requires OwnersOk(w) && LogOk(w) && AccountsOk(w, discarded)
    ensures AccountsOk(Removed(w, a).0, discarded)
  {
    hide AccountsOk, OwnersOk, LogOk;
    FewerAppsKeepAccounts(w, Removed(w, a).0, discarded);
  }

  lemma WorkerStepKeepsAccounts(s: World, step: Step)
    requires Inv(s.worker) && AccountsOk(s.worker, s.discarded) && Enabled(s, step)
    requires step.Resize? || step.Increase? || step.CleanUp?
    ensures AccountsOk(Apply(s, step).worker, s.discarded) && Apply(s, step).discarded == s.discarded
  {
    var w := s.worker;
    hide Inv, AccountsOk, Stopped, Resized;
    match step {
      case Resize(a, count, demand, victim, r) => ResizedKeepsAccounts(w, a, count, demand, victim, r, s.discarded);
      case Increase(a, victim, r) =>
        if a in w.apps {
          ResizedKeepsAccounts(w, a, |w.apps[a].instances| + 1, true, victim, r, s.discarded);
        }
      case CleanUp(a, sn, r) =>
        if a in w.apps && sn in w.apps[a].instances {
          StoppedKeepsAccounts(w, a, sn, r, s.discarded);
        }
    }
  }

  lemma DeployedKeepsAccounts(w: Worker, a: Address, m: Manifest, reuse: bool, discarded: set<nat>)
    requires AccountsOk(w, discarded)
    ensures AccountsOk(Deployed(w, a, m, reuse).0, discarded)
  {
    hide InLog, ManifestOk;
    var w' := Deployed(w, a, m, reuse).0;
    forall i | i in discarded
      ensures !Live(w', i)
    {
      assert !Live(w, i);
    }
  }

  lemma StepKeepsAccounts(s: World, step: Step)
    requires Inv(s.worker) && AccountsOk(s.worker, s.discarded) && Enabled(s, step)
    ensures AccountsOk(Apply(s, step).worker, Apply(s, step).discarded)
  {
    var w := s.worker;
    assert OwnersOk(w) && LogOk(w);
    hide Inv, AccountsOk, OwnersOk, LogOk, Deployed, GuardBegun, GuardEnded, Resized, Increased, CleanedUp, Removed;
    match step {
      case Deploy(a, m, reuse) => DeployedKeepsAccounts(w, a, m, reuse, s.discarded);
      case Resize(_, _, _, _, _) => WorkerStepKeepsAccounts(s, step);
      case Increase(_, _, _) => WorkerStepKeepsAccounts(s, step);
      case CleanUp(_, _, _) => WorkerStepKeepsAccounts(s, step);
      case BeginQuery(guard, a, size) => BeginKeepsAccounts(s, guard, a, size);
      case SetInstance(_, _) =>
      case EndQuery(guard) => EndKeepsAccounts(s, guard);
      case Remove(a) => RemoveKeepsAccounts(w, a, s.discarded);
      case Clear => FewerAppsKeepAccounts(w, w.(apps := map[]), s.discarded);
    }
  }

  lemma {:induction false} RunKeepsAccounts(s: World, steps: seq<Step>)
    requires Inv(s.worker) && AccountsOk(s.worker, s.discarded) && IsRun(s, steps)
    ensures AccountsOk(Exec(s, steps).worker, Exec(s, steps).discarded)
    decreases |steps|
  {
    hide Inv, AccountsOk, Apply, Enabled;
    if steps != [] {
      StepKeepsInv(s, steps[0]);
      StepKeepsAccounts(s, steps[0]);
      RunKeepsAccounts(Apply(s, steps[0]), steps[1..]);
    }
  }

  /**
   * In every run, each instance ever started for a deployed app is exactly one of live in that app, merged
   * into its history, and discarded by the end of a query.
   */
  lemma EveryInstanceIsAccounted(s: World, maxInstances: nat, a: Address, i: nat)
    requires Reachable(s, maxInstances) && a in s.worker.apps
    requires i in s.worker.owner && s.worker.owner[i] == s.worker.apps[a].sn
    ensures var live, merged, discarded := i in s.worker.apps[a].instances, InLog(s.worker.log, i), i in s.discarded;
            && (live || merged || discarded)
            && !(live && merged) && !(live && discarded) && !(merged && discarded)
    ensures forall j, k :: 0 <= j < k < |s.worker.log| && s.worker.log[j].sn == i ==> s.worker.log[k].sn != i
  {
    ReachableInv(s, maxInstances);
    var steps :| IsRun(Init(maxInstances), steps) && Exec(Init(maxInstances), steps) == s;
    assert Inv(Init(maxInstances).worker) by {
      ReachableInit(maxInstances);
      ReachableInv(Init(maxInstances), maxInstances);
    }
    RunKeepsAccounts(Init(maxInstances), steps);
    hide Exec, IsRun, HistoryOk, AppsOk, Reachable;
    if i in s.worker.apps[a].instances {
      assert Live(s.worker, i);
      LiveIsNotMerged(s.worker, i);
    }
  }
}
