/**
 * What every operation of the worker keeps: the slot limit, the ownership of instances, and the
 * accounting of metrics.
 */
module WorkerInvariants {
  import opened Common
  import opened Meters
  import opened WorkerModel

  // Slots

  lemma SlotsAdd(apps: map<Address, App>, a: Address, app: App, i: nat)
    requires a in apps && i !in apps[a].instances && app.instances == apps[a].instances + {i}
    ensures |Slots(apps[a := app])| == |Slots(apps)| + 1
  {
    var apps' := apps[a := app];
    forall b, j
      ensures (b, j) in Slots(apps') <==> (b, j) in Slots(apps) + {(a, i)}
    {
      assert b in apps' && b != a ==> apps'[b] == apps[b];
    }
    assert Slots(apps') == Slots(apps) + {(a, i)};
  }

  lemma SlotsRemove(apps: map<Address, App>, a: Address, app: App, i: nat)
    requires a in apps && i in apps[a].instances && app.instances == apps[a].instances - {i}
    ensures |Slots(apps[a := app])| == |Slots(apps)| - 1
  {
    assert Slots(apps[a := app]) == Slots(apps) - {(a, i)};
    assert (a, i) in Slots(apps);
  }

  lemma SlotsShrink(apps: map<Address, App>, apps': map<Address, App>)
    requires forall a :: a in apps' ==> apps'[a].instances == {} || (a in apps && apps'[a].instances <= apps[a].instances)
    ensures |Slots(apps')| <= |Slots(apps)|
  {
    SubsetCardinality(Slots(apps'), Slots(apps));
  }

  // The invariant

  ghost predicate AppsOk(w: Worker) {
    && (forall a :: a in w.apps ==> w.apps[a].sn < w.nextApp && ManifestOk(w.apps[a].manifest))
    && (forall a, b :: a in w.apps && b in w.apps && w.apps[a].sn == w.apps[b].sn ==> a == b)
  }

  ghost predicate Owned(w: Worker, sn: nat, app: nat) {
    sn < w.nextRun && sn in w.owner && w.owner[sn] == app
  }

  ghost predicate OwnersOk(w: Worker) {
    && (forall a, i :: a in w.apps && i in w.apps[a].instances ==> Owned(w, i, w.apps[a].sn))
    && (forall i :: i in w.owner ==> i < w.nextRun)
  }

  ghost predicate Live(w: Worker, sn: nat) {
    exists a :: a in w.apps && sn in w.apps[a].instances
  }

  /** Every merged reading belongs to the app it was merged into, and no instance is merged twice. */
  ghost predicate LogOk(w: Worker) {
    && (forall k :: 0 <= k < |w.log| ==> Owned(w, w.log[k].sn, w.log[k].app))
    && (forall k :: 0 <= k < |w.log| ==> !Live(w, w.log[k].sn))
    && (forall j, k :: 0 <= j < k < |w.log| ==> w.log[j].sn != w.log[k].sn)
  }

  /** The readings merged into the app with serial number `app`, in order. */
  ghost function ReadingsOf(log: seq<Folded>, app: nat): seq<Metrics> {
    if log == [] then []
    else
      ReadingsOf(log[..|log| - 1], app) + (if log[|log| - 1].app == app then [log[|log| - 1].reading] else [])
  }

  ghost predicate HistoryOk(w: Worker) {
    forall a :: a in w.apps ==> w.apps[a].hist == MergedAll(ZERO, ReadingsOf(w.log, w.apps[a].sn))
  }

  /** No app that is still to be deployed has merged readings. */
  ghost predicate LogBounded(w: Worker) {
    forall k :: 0 <= k < |w.log| ==> w.log[k].app < w.nextApp
  }

  ghost predicate Inv(w: Worker) {
    && Running(w) <= w.maxInstances
    && AppsOk(w)
    && OwnersOk(w)
    && LogOk(w)
    && LogBounded(w)
    && HistoryOk(w)
  }

  /** Identity and configuration of the apps are untouched. */
  ghost predicate SameApps(w: Worker, w': Worker) {
    && w'.apps.Keys == w.apps.Keys
    && w'.maxInstances == w.maxInstances && w'.nextApp == w.nextApp
    && (forall a :: a in w.apps ==>
          && w'.apps[a].sn == w.apps[a].sn
          && w'.apps[a].manifest == w.apps[a].manifest
          && w'.apps[a].reuse == w.apps[a].reuse
          && w'.apps[a].onGoingQueries == w.apps[a].onGoingQueries)
  }

  // Primitive changes keep the invariant

  lemma StartedKeepsOwners(w: Worker, a: Address, demand: bool)
    requires OwnersOk(w) && AppsOk(w) && LogOk(w)
    ensures OwnersOk(Started(w, a, demand).0) && AppsOk(Started(w, a, demand).0) && LogOk(Started(w, a, demand).0)
  {
    var w' := Started(w, a, demand).0;
    assert forall i, s :: Owned(w, i, s) ==> Owned(w', i, s);
    forall k | 0 <= k < |w.log|
      ensures !Live(w', w.log[k].sn)
    {
      assert !Live(w, w.log[k].sn) && Owned(w, w.log[k].sn, w.log[k].app);
    }
  }

  lemma StartedKeepsInv(w: Worker, a: Address, demand: bool)
    requires Inv(w) && Available(w) > 0
    ensures Inv(Started(w, a, demand).0)
    ensures Started(w, a, demand).1.Ok? ==> Available(Started(w, a, demand).0) == Available(w) - 1
    ensures Started(w, a, demand).1.Ok? ==> w.nextRun !in w.apps[a].instances
  {
    StartedKeepsOwners(w, a, demand);
    hide OwnersOk, AppsOk, LogOk;
    var w' := Started(w, a, demand).0;
    if Started(w, a, demand).1.Ok? {
      assert w.nextRun !in w.apps[a].instances by {
        NextRunIsNew(w, a);
      }
      SlotsAdd(w.apps, a, w'.apps[a], w.nextRun);
    }
  }

  lemma NextRunIsNew(w: Worker, a: Address)
    requires OwnersOk(w) && a in w.apps
    ensures w.nextRun !in w.apps[a].instances
  {
    assert forall i :: i in w.apps[a].instances ==> Owned(w, i, w.apps[a].sn);
  }

  lemma StoppedKeepsOwners(w: Worker, a: Address, sn: nat, r: Readings)
    requires OwnersOk(w) && AppsOk(w) && a in w.apps
    ensures OwnersOk(Stopped(w, a, sn, r)) && AppsOk(Stopped(w, a, sn, r))
  {
    assert forall i, s :: Owned(w, i, s) ==> Owned(Stopped(w, a, sn, r), i, s);
  }

  /** An instance is live in at most one app. */
  lemma OneOwner(w: Worker, a: Address, b: Address, sn: nat)
    requires AppsOk(w) && OwnersOk(w)
    requires a in w.apps && b in w.apps && sn in w.apps[a].instances && sn in w.apps[b].instances
    ensures a == b
  {
    assert Owned(w, sn, w.apps[a].sn) && Owned(w, sn, w.apps[b].sn);
  }

  lemma StoppedKeepsLog(w: Worker, a: Address, sn: nat, r: Readings)
    requires AppsOk(w) && OwnersOk(w) && LogOk(w)
    requires a in w.apps && sn in w.apps[a].instances
    ensures LogOk(Stopped(w, a, sn, r))
  {
    var w' := Stopped(w, a, sn, r);
    assert Live(w, sn) && Owned(w', sn, w.apps[a].sn);
    forall b | b in w'.apps
      ensures sn !in w'.apps[b].instances
    {
      if b != a && sn in w.apps[b].instances {
        OneOwner(w, a, b, sn);
      }
    }
    forall k | 0 <= k < |w.log|
      ensures !Live(w', w.log[k].sn) && w.log[k].sn != sn
    {
      assert !Live(w, w.log[k].sn);
    }
  }

  lemma ReadingsSnoc(log: seq<Folded>, f: Folded, app: nat)
    ensures f.app != app ==> ReadingsOf(log + [f], app) == ReadingsOf(log, app)
    ensures f.app == app ==>
              MergedAll(ZERO, ReadingsOf(log + [f], app)) == Merged(MergedAll(ZERO, ReadingsOf(log, app)), f.reading)
  {
    assert (log + [f])[..|log|] == log;
    var rs := ReadingsOf(log, app);
    assert rs + [] == rs;
    assert (rs + [f.reading])[..|rs|] == rs;
  }

  lemma StoppedKeepsHistory(w: Worker, a: Address, sn: nat, r: Readings)
    requires AppsOk(w) && HistoryOk(w) && a in w.apps
    ensures HistoryOk(Stopped(w, a, sn, r))
  {
    hide MergedAll, Merged, ReadingsOf, ManifestOk;
    var w', f := Stopped(w, a, sn, r), Folded(sn, w.apps[a].sn, r(sn));
    forall b | b in w'.apps
      ensures w'.apps[b].hist == MergedAll(ZERO, ReadingsOf(w'.log, w'.apps[b].sn))
    {
      ReadingsSnoc(w.log, f, w.apps[b].sn);
      if b != a {
        assert w.apps[b].sn != w.apps[a].sn;
      }
    }
  }

  lemma StoppedKeepsInv(w: Worker, a: Address, sn: nat, r: Readings)
    requires Inv(w)
    requires a in w.apps && sn in w.apps[a].instances
    ensures Inv(Stopped(w, a, sn, r))
    ensures Running(Stopped(w, a, sn, r)) == Running(w) - 1
  {
    StoppedKeepsOwners(w, a, sn, r);
    StoppedKeepsLog(w, a, sn, r);
    StoppedKeepsHistory(w, a, sn, r);
    SlotsRemove(w.apps, a, Stopped(w, a, sn, r).apps[a], sn);
    assert w.apps[a].sn < w.nextApp;
    hide OwnersOk, AppsOk, LogOk, HistoryOk;
  }

  /** `w'` differs from `w` only in the instances and the history of the app at `a`. */
  ghost predicate OnlyApp(w: Worker, w': Worker, a: Address) {
    && SameApps(w, w')
    && (forall b :: b in w.apps && b != a ==> w'.apps[b] == w.apps[b])
  }

  lemma OnlyAppTrans(w: Worker, w1: Worker, w2: Worker, a: Address)
    requires OnlyApp(w, w1, a) && OnlyApp(w1, w2, a)
    ensures OnlyApp(w, w2, a)
  {}

  lemma SameIsOnlyApp(w: Worker, a: Address)
    ensures OnlyApp(w, w, a)
  {}

  lemma OnlyAppKeys(w: Worker, w': Worker, a: Address)
    requires OnlyApp(w, w', a)
    ensures w'.apps.Keys == w.apps.Keys
  {}

  lemma StartedOnlyApp(w: Worker, a: Address, demand: bool)
    ensures OnlyApp(w, Started(w, a, demand).0, a)
    ensures Started(w, a, demand).1.Ok? ==>
              a in w.apps && Started(w, a, demand).0.apps[a].instances == w.apps[a].instances + {w.nextRun}
    ensures Started(w, a, demand).1.Err? ==> Started(w, a, demand).0 == w
    ensures demand && a in w.apps ==> Started(w, a, demand).1.Ok?
  {}

  lemma StoppedOnlyApp(w: Worker, a: Address, sn: nat, r: Readings)
    requires a in w.apps
    ensures OnlyApp(w, Stopped(w, a, sn, r), a)
    ensures Stopped(w, a, sn, r).apps[a].instances == w.apps[a].instances - {sn}
  {}

  lemma {:induction false} StartedNKeepsInv(w: Worker, a: Address, n: nat, demand: bool)
    requires Inv(w) && n <= Available(w) && a in w.apps
    ensures Inv(StartedN(w, a, n, demand).0)
    ensures OnlyApp(w, StartedN(w, a, n, demand).0, a)
    ensures w.apps[a].instances <= StartedN(w, a, n, demand).0.apps[a].instances
    ensures StartedN(w, a, n, demand).1.Ok? ==>
              var (w', res) := StartedN(w, a, n, demand);
              && Available(w') == Available(w) - n
              && |res.value| == n
              && |w'.apps[a].instances| == |w.apps[a].instances| + n
    ensures demand ==> StartedN(w, a, n, demand).1.Ok?
  {
    hide Inv, Available, Started, OnlyApp;
    if n == 0 {
      SameIsOnlyApp(w, a);
    } else {
      StartedNKeepsInv(w, a, n - 1, demand);
      var (w1, res) := StartedN(w, a, n - 1, demand);
      if res.Ok? {
        OnlyAppKeys(w, w1, a);
        StartedKeepsInv(w1, a, demand);
        StartedOnlyApp(w1, a, demand);
        OnlyAppTrans(w, w1, Started(w1, a, demand).0, a);
      }
    }
  }

  lemma {:induction false} StoppedNKeepsInv(w: Worker, a: Address, n: nat, r: Readings)
    requires Inv(w)
    requires a in w.apps && n <= |w.apps[a].instances|
    ensures Inv(StoppedN(w, a, n, r).0)
    ensures OnlyApp(w, StoppedN(w, a, n, r).0, a)
    ensures |StoppedN(w, a, n, r).1| == n
    ensures StoppedN(w, a, n, r).0.apps[a].instances <= w.apps[a].instances
  {
    hide Inv, Stopped, OnlyApp;
    if n == 0 {
      SameIsOnlyApp(w, a);
    } else {
      StoppedNKeepsInv(w, a, n - 1, r);
      var w1 := StoppedN(w, a, n - 1, r).0;
      var sn := MaxOf(w1.apps[a].instances);
      StoppedKeepsInv(w1, a, sn, r);
      StoppedOnlyApp(w1, a, sn, r);
      OnlyAppTrans(w, w1, Stopped(w1, a, sn, r), a);
    }
  }
}
