/** What each lock region of the worker does to the app it is called for, and when it is refused. */
module WorkerOutcomes {
  import opened Common
  import opened Meters
  import opened WorkerModel
  import opened WorkerInvariants
  import opened WorkerTheorems
  import WorkerRuns

  /** The next `n` sequence numbers. */
  ghost function Numbers(from: nat, n: nat): (r: seq<nat>)
    ensures |r| == n && forall k :: 0 <= k < n ==> r[k] == from + k
  {
    seq(n, k => from + k)
  }

  lemma NumbersSnoc(from: nat, n: nat)
    requires n > 0
    ensures Numbers(from, n) == Numbers(from, n - 1) + [from + n - 1]
    ensures Elems(Numbers(from, n)) == Elems(Numbers(from, n - 1)) + {from + n - 1}
  {
    assert Numbers(from, n) == Numbers(from, n - 1) + [from + n - 1];
    hide Numbers;
  }

  // Growing

  /** The app at `a` has the next `n` instances more. */
  ghost predicate GrownBy(w: Worker, w': Worker, a: Address, n: nat) {
    && a in w.apps && a in w'.apps && w'.nextRun == w.nextRun + n
    && w'.apps[a] == w.apps[a].(instances := w.apps[a].instances + Elems(Numbers(w.nextRun, n)))
  }

  lemma GrownByNone(w: Worker, a: Address)
    requires a in w.apps
    ensures GrownBy(w, w, a, 0) && Numbers(w.nextRun, 0) == []
  {
    assert Numbers(w.nextRun, 0) == [];
    assert w.apps[a].instances + Elems<nat>([]) == w.apps[a].instances;
  }

  lemma GrownByOneMore(w: Worker, w1: Worker, a: Address, n: nat, demand: bool)
    requires n > 0 && GrownBy(w, w1, a, n - 1)
    requires w.apps[a].manifest.resizable || demand || w1.apps[a].instances == {}
    ensures var (w', res) := Started(w1, a, demand);
            res == Ok(w.nextRun + n - 1) && GrownBy(w, w', a, n)
  {
    NumbersSnoc(w.nextRun, n);
    hide Numbers;
    assert w.apps[a].instances + (Elems(Numbers(w.nextRun, n - 1)) + {w.nextRun + n - 1})
        == w.apps[a].instances + Elems(Numbers(w.nextRun, n - 1)) + {w.nextRun + n - 1};
  }

  /** Nothing keeps an app from running several instances: it is resizable, or they are started on demand. */
  lemma {:induction false} StartsAll(w: Worker, a: Address, n: nat, demand: bool)
    requires a in w.apps && (w.apps[a].manifest.resizable || demand)
    ensures var (w', res) := StartedN(w, a, n, demand);
            res == Ok(Numbers(w.nextRun, n)) && GrownBy(w, w', a, n)
  {
    if n == 0 {
      GrownByNone(w, a);
    } else {
      StartsAll(w, a, n - 1, demand);
      hide Started, GrownBy;
      GrownByOneMore(w, StartedN(w, a, n - 1, demand).0, a, n, demand);
      NumbersSnoc(w.nextRun, n);
      hide Numbers;
    }
  }

  /** Otherwise the first instance is all there is. */
  lemma {:induction false} StartsOne(w: Worker, a: Address, n: nat)
    requires a in w.apps && !w.apps[a].manifest.resizable
    ensures var (w', res) := StartedN(w, a, n, false);
            var room := if w.apps[a].instances == {} then 1 else 0;
            && (n <= room ==> res == Ok(Numbers(w.nextRun, n)))
            && (n > room ==> res == Err(AlreadyStarted))
            && GrownBy(w, w', a, Min(n, room))
  {
    GrownByNone(w, a);
    if n > 0 {
      StartsOne(w, a, n - 1);
      if n == 1 && w.apps[a].instances == {} {
        GrownByOneMore(w, w, a, 1, false);
        NumbersSnoc(w.nextRun, 1);
      } else if n > 1 && w.apps[a].instances == {} {
        OneNumber(w.nextRun);
        assert w.nextRun in StartedN(w, a, n - 1, false).0.apps[a].instances;
      }
      hide Numbers;
    }
  }

  /** How many instances a resize to `count` may add. */
  ghost function Growth(w: Worker, a: Address, count: nat): int
    requires a in w.apps
  {
    Min(w.maxInstances - Running(w), count - |w.apps[a].instances|)
  }

  /**
   * A plain resize upwards is refused as on-demand if and only if the manifest is on-demand, and as already
   * started if and only if the app is not resizable and would get a second instance. Otherwise it adds as many
   * instances as are missing and free, reports exactly those, and keeps the old ones.
   */
  lemma PlainGrowth(w: Worker, a: Address, count: nat, victim: Address, r: Readings)
    requires Inv(w) && a in w.apps && |w.apps[a].instances| < count
    ensures var (w', res) := Resized(w, a, count, false, victim, r);
            var app, n := w.apps[a], Growth(w, a, count);
            && n >= 0 && a in w'.apps
            && (res == Err(OnDemandOnly) <==> app.manifest.onDemand)
            && (app.manifest.onDemand ==> w' == w)
            && (!app.manifest.onDemand ==>
                  && (res == Err(AlreadyStarted) <==> !app.manifest.resizable && n > (if app.instances == {} then 1 else 0))
                  && (res.Err? ==> res == Err(AlreadyStarted))
                  && (res.Ok? ==> res.value == Change(Numbers(w.nextRun, n), []) && w'.apps[a].instances == app.instances + Elems(Numbers(w.nextRun, n)))
                  && (res.Err? ==> w'.apps[a].instances == app.instances + (if app.instances == {} then {w.nextRun} else {})))
  {
    var app, n := w.apps[a], Growth(w, a, count);
    ResizedUp(w, a, count, victim, r);
    hide Inv, Growth, Resized;
    if app.manifest.onDemand {
    } else if app.manifest.resizable {
      StartsAll(w, a, n, false);
    } else {
      StartsOne(w, a, n);
      OneNumber(w.nextRun);
    }
    hide StartedN, Numbers;
  }

  /** A plain resize upwards is refused or starts instances one by one. */
  lemma ResizedUp(w: Worker, a: Address, count: nat, victim: Address, r: Readings)
    requires Inv(w) && a in w.apps && |w.apps[a].instances| < count
    ensures var n := Growth(w, a, count);
            && n >= 0
            && Resized(w, a, count, false, victim, r) ==
               if w.apps[a].manifest.onDemand then (w, Err(OnDemandOnly))
               else
                 var (w', res) := StartedN(w, a, n, false);
                 (w', if res.Ok? then Ok(Change(res.value, [])) else Err(res.error))
  {
    NothingToGetIff(w);
    hide Inv, Available, Running, StartedN, NothingToGet;
  }

  lemma OneNumber(from: nat)
    ensures Elems(Numbers(from, 1)) == {from} && Elems(Numbers(from, 0)) == {}
  {
    assert Numbers(from, 1) == [from];
  }

  /** New sequence numbers were never used. */
  lemma NumbersAreNew(w: Worker, n: nat, i: nat)
    requires Inv(w) && i in Numbers(w.nextRun, n)
    ensures i !in w.owner && !Live(w, i)
  {
    var k :| 0 <= k < n && Numbers(w.nextRun, n)[k] == i;
    assert forall a :: a in w.apps && i in w.apps[a].instances ==> Owned(w, i, w.apps[a].sn);
    hide Numbers, LogOk, HistoryOk, AppsOk;
  }

  /** A resize that is not upwards keeps the oldest instances and reports the others. */
  lemma ResizeDown(w: Worker, a: Address, count: nat, demand: bool, victim: Address, r: Readings)
    requires VictimOk(w, a, demand, victim) && a in w.apps && count <= |w.apps[a].instances|
    requires demand ==> w.apps[a].instances != {}
    ensures var (w', res) := Resized(w, a, count, demand, victim, r);
            && res.Ok? && res.value.created == [] && a in w'.apps
            && |w'.apps[a].instances| == count && Oldest(w'.apps[a].instances, w.apps[a].instances)
            && Elems(res.value.removed) == w.apps[a].instances - w'.apps[a].instances
  {
    var n := |w.apps[a].instances| - count;
    StopsYoungest(w, a, n, r);
    AdjustedDownResult(w, a, count, demand, r);
    if demand {
      NoEviction(w, a, count, victim, r);
    }
    hide StoppedN, Oldest, Adjusted, VictimOk, Reserved;
  }

  lemma AdjustedDownResult(w: Worker, a: Address, count: nat, demand: bool, r: Readings)
    requires a in w.apps && count <= |w.apps[a].instances|
    ensures var (w', sns) := StoppedN(w, a, |w.apps[a].instances| - count, r);
            Adjusted(w, a, count, demand, r) == (w', Ok(Change([], sns)))
  {
    hide StoppedN;
  }

  /** A demand resize upwards of an app that is running, or for which a slot is free, starts what fits. */
  lemma DemandGrowth(w: Worker, a: Address, count: nat, victim: Address, r: Readings)
    requires Inv(w) && VictimOk(w, a, true, victim) && a in w.apps && |w.apps[a].instances| < count
    requires w.apps[a].instances != {} || Running(w) < w.maxInstances
    ensures var (w', res) := Resized(w, a, count, true, victim, r);
            var n := Growth(w, a, count);
            && n >= 0 && res == Ok(Change(Numbers(w.nextRun, n), []))
            && a in w'.apps && w'.apps[a].instances == w.apps[a].instances + Elems(Numbers(w.nextRun, n))
  {
    var n := Growth(w, a, count);
    DemandResizedUp(w, a, count, victim, r);
    hide Inv, Growth, Resized;
    StartsAll(w, a, n, true);
    hide StartedN, Numbers;
  }

  /** No eviction is needed. */
  lemma DemandResizedUp(w: Worker, a: Address, count: nat, victim: Address, r: Readings)
    requires Inv(w) && VictimOk(w, a, true, victim) && a in w.apps && |w.apps[a].instances| < count
    requires w.apps[a].instances != {} || Running(w) < w.maxInstances
    ensures var n := Growth(w, a, count);
            && n >= 0
            && var (w', res) := StartedN(w, a, n, true);
               (res.Ok? ==> Resized(w, a, count, true, victim, r) == (w', Ok(Change(res.value, []))))
  {
    NothingToGetIff(w);
    assert w.apps[a].instances != {} || Available(w) > 0;
    assert Min(Available(w), count - |w.apps[a].instances|) == Growth(w, a, count);
    assert Available(w) >= 0;
    hide Inv, Available, Running, StartedN, NothingToGet, Resized, Adjusted, VictimOk, Growth;
    NoEviction(w, a, count, victim, r);
    AdjustedUp(w, a, count, r);
  }

  lemma NoEviction(w: Worker, a: Address, count: nat, victim: Address, r: Readings)
    requires VictimOk(w, a, true, victim) && a in w.apps && (w.apps[a].instances != {} || Available(w) > 0)
    ensures var (w', res) := Adjusted(w, a, count, true, r);
            res.Ok? ==> Resized(w, a, count, true, victim, r) == (w', res)
  {
    assert !MustEvict(w, a);
    hide Adjusted, Available, MustEvict, Candidates;
    var res := Adjusted(w, a, count, true, r).1;
    if res.Ok? {
      assert [] + res.value.removed == res.value.removed;
    }
  }

  lemma AdjustedUp(w: Worker, a: Address, count: nat, r: Readings)
    requires a in w.apps && |w.apps[a].instances| < count
    ensures var (w', res) := StartedN(w, a, Min(Available(w), count - |w.apps[a].instances|), true);
            (res.Ok? ==> Adjusted(w, a, count, true, r) == (w', Ok(Change(res.value, []))))
  {
    hide StartedN, Available;
  }

  // One more instance

  /**
   * Increasing a running app adds one instance if a slot is free and changes nothing otherwise. Increasing an
   * app without instances gives it one, unless there is nothing to get.
   */
  lemma IncreaseOutcome(w: Worker, a: Address, victim: Address, r: Readings)
    requires Inv(w) && VictimOk(w, a, true, victim) && a in w.apps
    ensures var (w', res) := Increased(w, a, victim, r);
            && a in w'.apps
            && (res.Err? <==> w.apps[a].instances == {} && NothingToGet(w))
            && (res.Err? ==> res == Err(NoAvailableSlots) && w' == w)
            && (w.apps[a].instances != {} ==>
                  if Running(w) < w.maxInstances then
                    res == Ok(Some(w.nextRun)) && w'.apps[a].instances == w.apps[a].instances + {w.nextRun}
                  else
                    res == Ok(None) && w'.apps[a].instances == w.apps[a].instances)
            && (w.apps[a].instances == {} && res.Ok? ==> res.value.Some? && w'.apps[a].instances == {res.value.value})
  {
    var count := |w.apps[a].instances| + 1;
    NothingToGetIff(w);
    if w.apps[a].instances != {} {
      DemandGrowth(w, a, count, victim, r);
      OneNumber(w.nextRun);
      assert Growth(w, a, count) == if Running(w) < w.maxInstances then 1 else 0;
      hide Resized, Numbers, Inv, Running, NothingToGet, Growth;
    } else {
      DemandStart(w, a, 1, victim, r);
      CreatedAreLive(w, a, victim, r);
      hide Resized, Numbers, Inv, Running, NothingToGet;
    }
  }

  /** An app that got its slot runs what it is given. */
  lemma AdjustedFromNone(w: Worker, a: Address, r: Readings)
    requires Inv(w) && a in w.apps && w.apps[a].instances == {}
    ensures var (w', res) := Adjusted(w, a, 1, true, r);
            res.Ok? && |res.value.created| == 1 ==> a in w'.apps && w'.apps[a].instances == {res.value.created[0]}
  {
    var n := Min(Available(w), 1);
    StartsAll(w, a, n, true);
    if n == 1 {
      OneNumber(w.nextRun);
    }
    hide Inv, Available, StartedN, Numbers;
  }

  /** The instance that a demand start of one creates is the one that then runs. */
  lemma CreatedAreLive(w: Worker, a: Address, victim: Address, r: Readings)
    requires Inv(w) && VictimOk(w, a, true, victim) && a in w.apps && w.apps[a].instances == {}
    ensures var (w', res) := Resized(w, a, 1, true, victim, r);
            res.Ok? && |res.value.created| == 1 ==> a in w'.apps && w'.apps[a].instances == {res.value.created[0]}
  {
    ReservedCases(w, a, victim, r);
    var (w1, reserved) := Reserved(w, a, victim, r);
    hide Inv, Stopped, Available, Reserved, Adjusted, Candidates, VictimOk;
    if reserved.Ok? {
      assert a in w1.apps && w1.apps[a].instances == {};
      AdjustedFromNone(w1, a, r);
    }
  }

  // Queries

  /** The locked parts of `prepare_instance_for_query`: count the query, then start what it needs. */
  ghost function Prepared(w: Worker, a: Address, size: nat, victim: Address, r: Readings): (Worker, Result<Option<nat>, Error>)
    requires VictimOk(QueryBegun(w, a, size).0, a, true, victim)
  {
    match QueryBegun(w, a, size)
    case (w1, Err(e)) => (w1, Err(e))
    case (w1, Ok(start)) =>
      if !start.startNeeded then (w1, Ok(None))
      else if start.reuse then
        match Resized(w1, a, 1, true, victim, r)
        case (w2, Err(e)) => (w2, Err(e))
        case (w2, Ok(_)) => (w2, Ok(None))
      else Increased(w1, a, victim, r)
  }

  /** A query is refused exactly when its app is unknown or its payload too large, and then changes nothing. */
  lemma BeginOutcome(w: Worker, a: Address, size: nat)
    ensures var (w', res) := QueryBegun(w, a, size);
            && (res == Err(AppNotFound) <==> a !in w.apps)
            && (a in w.apps ==> (res == Err(QueryTooLarge) <==> size > w.apps[a].manifest.maxQuerySize))
            && (res.Err? ==> w' == w)
            && (res.Ok? ==> a in w'.apps && w'.apps[a] == w.apps[a].(onGoingQueries := w'.apps[a].onGoingQueries))
            && (res.Ok? ==> w' == w.(apps := w.apps[a := w'.apps[a]]))
  {}

  lemma CountingKeepsSlots(w: Worker, a: Address, n: nat)
    requires a in w.apps
    ensures var w' := w.(apps := w.apps[a := w.apps[a].(onGoingQueries := n)]);
            Running(w') == Running(w) && (NothingToGet(w') <==> NothingToGet(w))
  {
    var w' := w.(apps := w.apps[a := w.apps[a].(onGoingQueries := n)]);
    assert Slots(w'.apps) == Slots(w.apps);
    assert forall b :: b in w.apps ==> w'.apps[b].manifest == w.apps[b].manifest && w'.apps[b].instances == w.apps[b].instances;
    hide Slots;
  }

  /**
   * Preparing an accepted query fails exactly when the app needs an instance, has none, and there is nothing to
   * get. Otherwise an on-demand app, and any app that does not reuse instances, has one afterwards; an app
   * that reuses and has instances keeps exactly those.
   */
  lemma PreparedOutcome(w: Worker, a: Address, size: nat, victim: Address, r: Readings)
    requires Inv(w) && a in w.apps && size <= w.apps[a].manifest.maxQuerySize
    requires VictimOk(QueryBegun(w, a, size).0, a, true, victim)
    ensures var (w', res) := Prepared(w, a, size, victim, r);
            var app := w.apps[a];
            && a in w'.apps
            && (res.Err? <==> app.instances == {} && (app.manifest.onDemand || !app.reuse) && NothingToGet(w))
            && (res.Ok? && (app.manifest.onDemand || !app.reuse) ==> w'.apps[a].instances != {})
            && (app.reuse && (app.instances != {} || !app.manifest.onDemand) ==> w'.apps[a].instances == app.instances)
  {
    var w1 := QueryBegun(w, a, size).0;
    WorkerRuns.QueryKeepsInv(w, a, size, None);
    CountingKeepsSlots(w, a, w1.apps[a].onGoingQueries);
    BeginOutcome(w, a, size);
    hide Inv, NothingToGet, Running;
    if !w.apps[a].reuse {
      IncreaseOutcome(w1, a, victim, r);
    } else if w.apps[a].instances == {} && w.apps[a].manifest.onDemand {
      DemandStart(w1, a, 1, victim, r);
    }
    hide Increased, Resized;
  }

  // Deployment and clean-up

  /**
   * A deployment is accepted exactly when the manifest is of version 1, is not both resizable and on-demand,
   * keeps the limits, and the address is free. The new app is idle and has a serial number of its own.
   */
  lemma DeployOutcome(w: Worker, a: Address, m: Manifest, reuse: bool)
    requires AppsOk(w)
    ensures var (w', res) := Deployed(w, a, m, reuse);
            var good := m.version == 1 && !(m.resizable && m.onDemand) && m.labelLength <= 64 && m.sizeHint <= 16384;
            && (res == Err(InvalidManifest) <==> !good)
            && (good ==> (res == Err(AppExists) <==> a in w.apps))
            && (res.Err? ==> w' == w)
            && (res.Ok? ==> a in w'.apps && w'.apps == w.apps[a := w'.apps[a]])
            && (res.Ok? ==> w'.apps[a].instances == {} && w'.apps[a].onGoingQueries == 0 && w'.apps[a].hist == ZERO)
            && (res.Ok? ==> w'.apps[a].manifest == m && w'.apps[a].reuse == reuse && forall b :: b in w.apps ==> w.apps[b].sn != w'.apps[a].sn)
  {}

  /** Removing an app takes it out with its instances and leaves every other app alone; it fails exactly for an unknown app. */
  lemma RemoveOutcome(w: Worker, a: Address)
    ensures var (w', res) := Removed(w, a);
            && (res == Ok(()) <==> a in w.apps) && (res == Err(AppNotFound) <==> a !in w.apps)
            && a !in w'.apps && w'.apps.Keys == w.apps.Keys - {a}
            && (forall b :: b in w'.apps ==> w'.apps[b] == w.apps[b])
            && w' == w.(apps := w'.apps)
            && Slots(w'.apps) == (set p | p in Slots(w.apps) && p.0 != a)
  {
    var w' := Removed(w, a).0;
    assert a !in w.apps ==> w'.apps == w.apps - {a};
  }

  /**
   * The end of a query fails exactly for an unknown app or instance. With an instance of its own it takes
   * that one out and leaves the count; without, it counts down and takes out only what falls idle.
   */
  lemma EndQueryOutcome(w: Worker, a: Address, instance: Option<nat>)
    ensures var (w', res) := QueryEnded(w, a, instance);
            && (res == Err(AppNotFound) <==> a !in w.apps)
            && (res == Err(InstanceNotFound) <==> a in w.apps && instance.Some? && instance.value !in w.apps[a].instances)
            && (res.Err? ==> w' == w && res.error in {AppNotFound, InstanceNotFound})
            && (res.Ok? && instance.Some? ==>
                  w'.apps[a] == w.apps[a].(instances := w.apps[a].instances - {instance.value}))
            && (res.Ok? && instance.None? && w.apps[a].onGoingQueries > 0 ==>
                  && w'.apps[a].onGoingQueries == w.apps[a].onGoingQueries - 1
                  && w'.apps[a].instances ==
                     if w.apps[a].onGoingQueries == 1 && w.apps[a].manifest.onDemand then {} else w.apps[a].instances)
            && (res.Ok? ==> w' == w.(apps := w.apps[a := w'.apps[a]]))
  {}

  /** After the clean-up an exited instance is not recorded, and if it was, its reading is in its app's history. */
  lemma CleanUpOutcome(w: Worker, a: Address, sn: nat, r: Readings)
    ensures var w' := CleanedUp(w, a, sn, r);
            && w'.apps.Keys == w.apps.Keys
            && (a in w.apps ==> w'.apps[a].instances == w.apps[a].instances - {sn})
            && (a in w.apps && sn in w.apps[a].instances ==>
                  && w'.apps[a].hist == Merged(w.apps[a].hist, r(sn))
                  && w'.log == w.log + [Folded(sn, w.apps[a].sn, r(sn))])
            && (a !in w.apps || sn !in w.apps[a].instances ==> w' == w)
  {
    hide Merged;
  }
}
