/** The main results about single lock regions of the worker: resizing, demand starts and metrics. */
module WorkerTheorems {
  import opened Common
  import opened Meters
  import opened WorkerModel
  import opened WorkerInvariants

  // Resizing

  lemma AdjustedKeepsInv(w: Worker, a: Address, count: nat, demand: bool, r: Readings)
    requires Inv(w)
    ensures Inv(Adjusted(w, a, count, demand, r).0)
    ensures OnlyApp(w, Adjusted(w, a, count, demand, r).0, a)
    ensures a in w.apps && |w.apps[a].instances| < count && demand ==>
              var (w', res) := Adjusted(w, a, count, demand, r);
              var n := Min(Available(w), count - |w.apps[a].instances|);
              && res.Ok? && |res.value.created| == n && res.value.removed == []
              && w.apps[a].instances <= w'.apps[a].instances
              && |w'.apps[a].instances| == |w.apps[a].instances| + n
  {
    hide Inv, Available, OnlyApp, StartedN, StoppedN;
    SameIsOnlyApp(w, a);
    if a in w.apps {
      var current := |w.apps[a].instances|;
      if current < count {
        StartedNKeepsInv(w, a, Min(Available(w), count - current), demand);
      } else {
        StoppedNKeepsInv(w, a, current - count, r);
      }
    }
  }

  lemma ReservedKeepsInv(w: Worker, a: Address, victim: Address, r: Readings)
    requires Inv(w) && VictimOk(w, a, true, victim)
    ensures Inv(Reserved(w, a, victim, r).0)
    ensures SameApps(w, Reserved(w, a, victim, r).0)
    ensures Reserved(w, a, victim, r).1.Ok? && Reserved(w, a, victim, r).1.value.Some? ==>
              Available(Reserved(w, a, victim, r).0) == 1
  {
    if MustEvict(w, a) && Candidates(w) != {} {
      var sn := MaxOf(w.apps[victim].instances);
      StoppedKeepsInv(w, victim, sn, r);
      StoppedOnlyApp(w, victim, sn, r);
      hide Slots, AppsOk, OwnersOk, LogOk, LogBounded, HistoryOk;
    }
  }

  lemma ResizedKeepsInv(w: Worker, a: Address, count: nat, demand: bool, victim: Address, r: Readings)
    requires Inv(w) && VictimOk(w, a, demand, victim)
    ensures Inv(Resized(w, a, count, demand, victim, r).0)
    ensures SameApps(w, Resized(w, a, count, demand, victim, r).0)
  {
    hide Inv, Available, Adjusted, Reserved;
    if demand {
      ReservedKeepsInv(w, a, victim, r);
      AdjustedKeepsInv(Reserved(w, a, victim, r).0, a, count, demand, r);
    } else {
      AdjustedKeepsInv(w, a, count, demand, r);
    }
  }

  lemma IncreasedKeepsInv(w: Worker, a: Address, victim: Address, r: Readings)
    requires Inv(w) && VictimOk(w, a, true, victim)
    ensures Inv(Increased(w, a, victim, r).0)
    ensures SameApps(w, Increased(w, a, victim, r).0)
  {
    hide Inv, Resized;
    if a in w.apps {
      ResizedKeepsInv(w, a, |w.apps[a].instances| + 1, true, victim, r);
    }
  }

  /** What a reservation for an app without instances does. */
  lemma ReservedCases(w: Worker, a: Address, victim: Address, r: Readings)
    requires Inv(w) && VictimOk(w, a, true, victim)
    requires a in w.apps && w.apps[a].instances == {}
    ensures Available(w) > 0 ==> Reserved(w, a, victim, r) == (w, Ok(None))
    ensures Available(w) == 0 && Candidates(w) == {} ==> Reserved(w, a, victim, r) == (w, Err(NoAvailableSlots))
    ensures Available(w) == 0 && Candidates(w) != {} ==>
              && victim in Candidates(w) && victim != a && !w.apps[victim].manifest.onDemand
              && var sn := MaxOf(w.apps[victim].instances);
                 var w1 := Stopped(w, victim, sn, r);
                 && Reserved(w, a, victim, r) == (w1, Ok(Some(sn)))
                 && OnlyApp(w, w1, victim) && w1.apps[victim].instances == w.apps[victim].instances - {sn}
                 && Inv(w1) && Available(w1) == 1
  {
    ReservedKeepsInv(w, a, victim, r);
    if Available(w) == 0 && Candidates(w) != {} {
      assert ManifestOk(w.apps[victim].manifest);
      StoppedOnlyApp(w, victim, MaxOf(w.apps[victim].instances), r);
    }
    hide Inv, Slots, Stopped;
  }

  /** Every slot is taken, and no app may be evicted from. */
  ghost predicate NothingToGet(w: Worker) {
    && Running(w) == w.maxInstances
    && forall b :: b in w.apps ==> !w.apps[b].manifest.resizable || w.apps[b].instances == {}
  }

  lemma NothingToGetIff(w: Worker)
    requires Inv(w)
    ensures NothingToGet(w) <==> Available(w) == 0 && Candidates(w) == {}
    ensures Available(w) == w.maxInstances - Running(w)
  {
    if NothingToGet(w) {
      assert Candidates(w) == {};
    } else if b :| b in w.apps && w.apps[b].manifest.resizable && w.apps[b].instances != {} {
      assert b in Candidates(w);
    }
    hide Slots, AppsOk, OwnersOk, LogOk, HistoryOk;
  }

  lemma DemandStartSlots(w: Worker, a: Address, count: nat, victim: Address, r: Readings)
    requires Inv(w) && VictimOk(w, a, true, victim)
    requires a in w.apps && w.apps[a].instances == {} && count >= 1
    ensures var (w', res) := Resized(w, a, count, true, victim, r);
            && (res.Err? <==> Available(w) == 0 && Candidates(w) == {})
            && (res.Err? ==> res.error == NoAvailableSlots && w' == w)
            && (res.Ok? ==> a in w'.apps && |w'.apps[a].instances| == |res.value.created| == Min(Max(Available(w), 1), count))
  {
    hide Inv, Adjusted, Reserved, Stopped, Available, OnlyApp, Candidates;
    ReservedCases(w, a, victim, r);
    var w1 := Reserved(w, a, victim, r).0;
    if Reserved(w, a, victim, r).1.Ok? {
      if Available(w) == 0 {
        OnlyAppElsewhere(w, w1, victim, a);
      }
      AdjustedKeepsInv(w1, a, count, true, r);
      OnlyAppKeys(w1, Adjusted(w1, a, count, true, r).0, a);
    }
  }

  /**
   * A demand start of an app without instances fails exactly when every slot is taken and nothing may
   * be evicted, and then changes nothing; otherwise it ends with at least one instance.
   */
  lemma DemandStart(w: Worker, a: Address, count: nat, victim: Address, r: Readings)
    requires Inv(w) && VictimOk(w, a, true, victim)
    requires a in w.apps && w.apps[a].instances == {} && count >= 1
    ensures var (w', res) := Resized(w, a, count, true, victim, r);
            && (res.Err? <==> NothingToGet(w))
            && (res.Err? ==> res.error == NoAvailableSlots && w' == w)
            && (res.Ok? ==> a in w'.apps && |w'.apps[a].instances| == |res.value.created| == Min(Max(w.maxInstances - Running(w), 1), count))
  {
    NothingToGetIff(w);
    DemandStartSlots(w, a, count, victim, r);
    hide Inv, NothingToGet, Running, Available, Candidates, Resized, VictimOk;
  }

  lemma OnlyAppElsewhere(w: Worker, w': Worker, a: Address, b: Address)
    requires OnlyApp(w, w', a) && b in w.apps && b != a
    ensures b in w'.apps && w'.apps[b] == w.apps[b]
  {}

  /** The change that a demand start makes when it has to evict from the app at `victim`. */
  ghost predicate EvictsYoungest(w: Worker, w': Worker, a: Address, victim: Address, removed: seq<nat>) {
    && w'.apps.Keys == w.apps.Keys
    && victim in w.apps && victim != a
    && w.apps[victim].manifest.resizable && !w.apps[victim].manifest.onDemand
    && w.apps[victim].instances != {}
    && removed == [MaxOf(w.apps[victim].instances)]
    && w'.apps[victim].instances == w.apps[victim].instances - {MaxOf(w.apps[victim].instances)}
    && (forall b :: b in w.apps && b != a && b != victim ==> w'.apps[b] == w.apps[b])
  }

  /** A demand start evicts at most one instance: the youngest of another, resizable app, when no slot is free. */
  lemma DemandStartEvicts(w: Worker, a: Address, count: nat, victim: Address, r: Readings)
    requires Inv(w) && VictimOk(w, a, true, victim)
    requires a in w.apps && w.apps[a].instances == {} && count >= 1
    requires Resized(w, a, count, true, victim, r).1.Ok?
    ensures var (w', res) := Resized(w, a, count, true, victim, r);
            if Available(w) > 0 then res.value.removed == [] && OnlyApp(w, w', a)
            else EvictsYoungest(w, w', a, victim, res.value.removed)
  {
    hide Inv, Adjusted, Reserved, Stopped, Available;
    ReservedCases(w, a, victim, r);
    var w1 := Reserved(w, a, victim, r).0;
    AdjustedKeepsInv(w1, a, count, true, r);
  }

  /** `kept` are the oldest of `all`. */
  ghost predicate Oldest(kept: set<nat>, all: set<nat>) {
    kept <= all && forall i, j :: i in kept && j in all && j !in kept ==> i < j
  }

  lemma DropMaxKeepsOldest(kept: set<nat>, all: set<nat>)
    requires Oldest(kept, all) && kept != {}
    ensures Oldest(kept - {MaxOf(kept)}, all)
  {}

  /** Resizing down keeps the oldest instances and reports exactly the others. */
  lemma {:induction false} StopsYoungest(w: Worker, a: Address, n: nat, r: Readings)
    requires a in w.apps && n <= |w.apps[a].instances|
    ensures Oldest(StoppedN(w, a, n, r).0.apps[a].instances, w.apps[a].instances)
    ensures Elems(StoppedN(w, a, n, r).1) == w.apps[a].instances - StoppedN(w, a, n, r).0.apps[a].instances
  {
    hide Stopped, MaxOf;
    if n > 0 {
      StopsYoungest(w, a, n - 1, r);
      var (w1, sns) := StoppedN(w, a, n - 1, r);
      var sn := MaxOf(w1.apps[a].instances);
      DropMaxKeepsOldest(w1.apps[a].instances, w.apps[a].instances);
      StoppedOnlyApp(w1, a, sn, r);
      hide OnlyApp, Oldest;
      assert Elems(sns + [sn]) == Elems(sns) + {sn};
    }
  }

  // Metrics

  /** The reading of any one instance may be merged last. */
  lemma {:induction false} AppMetricsSplit(h: Metrics, instances: set<nat>, r: Readings, x: nat)
    requires x in instances
    ensures AppMetrics(h, instances, r) == Merged(AppMetrics(h, instances - {x}, r), r(x))
    decreases |instances|
  {
    var m := MaxOf(instances);
    if x != m {
      var rest := instances - {m} - {x};
      AppMetricsSplit(h, instances - {m}, r, x);
      assert instances - {x} - {m} == rest;
      assert MaxOf(instances - {x}) == m;
      MergeSwap(AppMetrics(h, rest, r), r(x), r(m));
    }
  }

  /** Moving a reading from the live side into the history does not change the app's metrics. */
  lemma {:induction false} AppMetricsFold(h: Metrics, instances: set<nat>, r: Readings, m: Metrics)
    ensures AppMetrics(Merged(h, m), instances, r) == Merged(AppMetrics(h, instances, r), m)
    decreases |instances|
  {
    if instances != {} {
      var x := MaxOf(instances);
      AppMetricsFold(h, instances - {x}, r, m);
      MergeSwap(AppMetrics(h, instances - {x}, r), m, r(x));
    }
  }

  ghost function MetricsOf(w: Worker, a: Address, r: Readings): Metrics
    requires a in w.apps
  {
    AppMetrics(w.apps[a].hist, w.apps[a].instances, r)
  }

  /** The metrics of every app are what they were. */
  ghost predicate Conserves(w: Worker, w': Worker, r: Readings) {
    w'.apps.Keys == w.apps.Keys && forall b :: b in w.apps ==> MetricsOf(w', b, r) == MetricsOf(w, b, r)
  }

  lemma StoppedConserves(w: Worker, a: Address, sn: nat, r: Readings)
    requires a in w.apps && sn in w.apps[a].instances
    ensures Conserves(w, Stopped(w, a, sn, r), r)
  {
    var app := w.apps[a];
    AppMetricsSplit(app.hist, app.instances, r, sn);
    AppMetricsFold(app.hist, app.instances - {sn}, r, r(sn));
  }

  lemma {:induction false} StoppedNConserves(w: Worker, a: Address, n: nat, r: Readings)
    requires a in w.apps && n <= |w.apps[a].instances|
    ensures Conserves(w, StoppedN(w, a, n, r).0, r)
  {
    hide Stopped, MetricsOf;
    if n > 0 {
      StoppedNConserves(w, a, n - 1, r);
      var w1 := StoppedN(w, a, n - 1, r).0;
      StoppedConserves(w1, a, MaxOf(w1.apps[a].instances), r);
    }
  }

  lemma ReservedConserves(w: Worker, a: Address, victim: Address, r: Readings)
    requires Inv(w) && VictimOk(w, a, true, victim)
    ensures Conserves(w, Reserved(w, a, victim, r).0, r)
    ensures a in w.apps && w.apps[a].instances != {} ==> Reserved(w, a, victim, r).0 == w
  {
    if MustEvict(w, a) && Candidates(w) != {} {
      StoppedConserves(w, victim, MaxOf(w.apps[victim].instances), r);
    }
    hide Inv, Stopped, Slots, AppMetrics;
  }

  /** Every app but the one at `a` keeps its metrics, and so does that one unless it grows. */
  ghost predicate ConservesUnlessGrown(w: Worker, w': Worker, a: Address, count: nat, r: Readings) {
    && w'.apps.Keys == w.apps.Keys
    && (forall b :: b in w.apps && b != a ==> MetricsOf(w', b, r) == MetricsOf(w, b, r))
    && (a in w.apps && |w.apps[a].instances| >= count ==> MetricsOf(w', a, r) == MetricsOf(w, a, r))
  }

  lemma OnlyAppMetrics(w: Worker, w': Worker, a: Address, r: Readings)
    requires OnlyApp(w, w', a)
    ensures w'.apps.Keys == w.apps.Keys
    ensures forall b :: b in w.apps && b != a ==> MetricsOf(w', b, r) == MetricsOf(w, b, r)
  {}

  lemma AdjustedDown(w: Worker, a: Address, count: nat, demand: bool, r: Readings)
    requires a in w.apps && |w.apps[a].instances| >= count
    ensures Adjusted(w, a, count, demand, r).0 == StoppedN(w, a, |w.apps[a].instances| - count, r).0
  {}

  lemma AdjustedConserves(w: Worker, a: Address, count: nat, demand: bool, r: Readings)
    requires Inv(w)
    ensures ConservesUnlessGrown(w, Adjusted(w, a, count, demand, r).0, a, count, r)
  {
    hide Inv, Adjusted, MetricsOf, OnlyApp, StoppedN;
    AdjustedKeepsInv(w, a, count, demand, r);
    OnlyAppMetrics(w, Adjusted(w, a, count, demand, r).0, a, r);
    if a in w.apps && |w.apps[a].instances| >= count {
      AdjustedDown(w, a, count, demand, r);
      StoppedNConserves(w, a, |w.apps[a].instances| - count, r);
    }
  }

  /** Shrinking and evicting lose nothing; only the app that is being started may grow. */
  lemma ResizedConserves(w: Worker, a: Address, count: nat, demand: bool, victim: Address, r: Readings)
    requires Inv(w) && VictimOk(w, a, demand, victim)
    ensures ConservesUnlessGrown(w, Resized(w, a, count, demand, victim, r).0, a, count, r)
  {
    hide Inv, AppMetrics, Adjusted, Reserved;
    if demand {
      ReservedKeepsInv(w, a, victim, r);
      ReservedConserves(w, a, victim, r);
      AdjustedConserves(Reserved(w, a, victim, r).0, a, count, demand, r);
    } else {
      AdjustedConserves(w, a, count, demand, r);
    }
  }

  /** The clean-up after an exit loses nothing, whoever removed the instance first. */
  lemma CleanUpConserves(w: Worker, a: Address, sn: nat, r: Readings)
    ensures Conserves(w, CleanedUp(w, a, sn, r), r)
  {
    if a in w.apps && sn in w.apps[a].instances {
      StoppedConserves(w, a, sn, r);
    }
  }

  // What ending a query loses

  /** Taking out several instances at once takes out their readings. */
  lemma {:induction false} AppMetricsSplitSet(h: Metrics, instances: set<nat>, gone: set<nat>, r: Readings)
    requires gone <= instances
    ensures AppMetrics(h, instances, r) == AppMetrics(AppMetrics(h, instances - gone, r), gone, r)
    decreases |gone|
  {
    if gone == {} {
      assert instances - gone == instances;
    } else {
      var x := MaxOf(gone);
      AppMetricsSplit(h, instances, r, x);
      AppMetricsSplitSet(h, instances - {x}, gone - {x}, r);
      assert instances - {x} - (gone - {x}) == instances - gone;
    }
  }

  /** The instances that ending a query takes out. */
  ghost function TakenOut(w: Worker, a: Address, instance: Option<nat>): set<nat>
    requires a in w.apps
  {
    w.apps[a].instances - QueryEnded(w, a, instance).0.apps[a].instances
  }

  /** No instance goes with the query: not its own, and not all of an on-demand app that falls idle. */
  ghost predicate EndsQuietly(app: App, instance: Option<nat>) {
    match instance
    case Some(id) => id !in app.instances
    case None => !(app.onGoingQueries == 1 && app.manifest.onDemand && app.instances != {})
  }

  /** A query takes out its own instance, or all instances of an on-demand app that falls idle with it. */
  lemma TakesOutIff(w: Worker, a: Address, instance: Option<nat>)
    requires a in w.apps
    ensures var app := w.apps[a];
            TakenOut(w, a, instance) ==
            if EndsQuietly(app, instance) then {} else if instance.Some? then {instance.value} else app.instances
    ensures TakenOut(w, a, instance) == {} <==> EndsQuietly(w.apps[a], instance)
  {
    match instance {
      case Some(id) => assert w.apps[a].instances - (w.apps[a].instances - {id}) == if id in w.apps[a].instances then {id} else {};
      case None => assert w.apps[a].instances - {} == w.apps[a].instances;
    }
  }

  /** Ending a query loses the readings of the instances it takes out, exactly, and nothing else changes. */
  lemma EndQueryLoses(w: Worker, a: Address, instance: Option<nat>, r: Readings)
    requires a in w.apps
    ensures var w' := QueryEnded(w, a, instance).0;
            && a in w'.apps
            && MetricsOf(w, a, r) == AppMetrics(MetricsOf(w', a, r), TakenOut(w, a, instance), r)
            && w'.log == w.log && w'.apps[a].hist == w.apps[a].hist
            && (forall b :: b in w.apps && b != a ==> b in w'.apps && w'.apps[b] == w.apps[b])
    ensures var app := w.apps[a];
            TakenOut(w, a, instance) ==
            if EndsQuietly(app, instance) then {} else if instance.Some? then {instance.value} else app.instances
    ensures TakenOut(w, a, instance) == {} <==> EndsQuietly(w.apps[a], instance)
  {
    var instances, gone := w.apps[a].instances, TakenOut(w, a, instance);
    TakesOutIff(w, a, instance);
    AppMetricsSplitSet(w.apps[a].hist, instances, gone, r);
    assert instances - gone == QueryEnded(w, a, instance).0.apps[a].instances;
    hide AppMetrics;
  }

  /** If only `x` shows a reading, that reading is in the metrics exactly when `x` is live. */
  lemma {:induction false} OneReading(h: Metrics, instances: set<nat>, x: nat, r: Readings)
    requires InRange(h) && forall i :: r(i) == if i == x then ONE else ZERO
    ensures AppMetrics(h, instances, r) == if x in instances then Merged(h, ONE) else h
    decreases |instances|
  {
    if instances != {} {
      OneReading(h, instances - {MaxOf(instances)}, x, r);
      MergeShows(h, ONE);
      MergeShows(Merged(h, ONE), ZERO);
    }
  }

  lemma {:induction false} SaturatedStays(h: Metrics, instances: set<nat>, r: Readings)
    requires InRange(h) && Saturated(h)
    ensures AppMetrics(h, instances, r) == h
    decreases |instances|
  {
    if instances != {} {
      SaturatedStays(h, instances - {MaxOf(instances)}, r);
      MergeShows(h, r(MaxOf(instances)));
    }
  }

  /** In every state of a run, counters fit their types. */
  lemma HistoryInRange(w: Worker, a: Address)
    requires Inv(w) && a in w.apps
    ensures InRange(w.apps[a].hist)
  {
    MergedAllInRange(ReadingsOf(w.log, w.apps[a].sn));
    hide MergedAll, ReadingsOf;
  }

  /**
   * Ending a query conserves the app's metrics, whatever the meters show, if and only if it ends quietly or
   * every counter of the history is saturated already.
   */
  lemma EndQueryConservesIff(w: Worker, a: Address, instance: Option<nat>)
    requires a in w.apps && InRange(w.apps[a].hist)
    ensures var w' := QueryEnded(w, a, instance).0;
            && a in w'.apps
            && ((forall r: Readings :: MetricsOf(w', a, r) == MetricsOf(w, a, r))
                <==> EndsQuietly(w.apps[a], instance) || Saturated(w.apps[a].hist))
  {
    var w', h := QueryEnded(w, a, instance).0, w.apps[a].hist;
    TakesOutIff(w, a, instance);
    assert a in w'.apps && w'.apps[a].hist == h;
    if TakenOut(w, a, instance) == {} {
      assert w'.apps[a].instances == w.apps[a].instances;
    } else if Saturated(h) {
      forall r: Readings
        ensures MetricsOf(w', a, r) == MetricsOf(w, a, r)
      {
        SaturatedStays(h, w.apps[a].instances, r);
        SaturatedStays(h, w'.apps[a].instances, r);
      }
    } else {
      var x :| x in TakenOut(w, a, instance);
      var r: Readings := i => if i == x then ONE else ZERO;
      OneReading(h, w.apps[a].instances, x, r);
      OneReading(h, w'.apps[a].instances, x, r);
      MergeShows(h, ONE);
      hide AppMetrics, EndsQuietly, Merged, Saturated;
      assert MetricsOf(w', a, r) != MetricsOf(w, a, r);
    }
  }
}
