/**
 * The worker state as it updates its own tables, each method proved against the functions on
 * values. `order` is the order in which the app table happens to be iterated.
 */
module WorkerStates {
  import opened Common
  import opened Meters
  import opened WorkerModel

  ghost function SlotsIn(apps: map<Address, App>, keys: set<Address>): set<(Address, nat)> {
    set a, i | a in keys && a in apps && i in apps[a].instances :: (a, i)
  }

  ghost function SlotsAt(a: Address, instances: set<nat>): set<(Address, nat)> {
    set i | i in instances :: (a, i)
  }

  lemma {:induction false} SlotsAtCount(a: Address, instances: set<nat>)
    ensures |SlotsAt(a, instances)| == |instances|
  {
    if instances != {} {
      var i :| i in instances;
      SlotsAtCount(a, instances - {i});
      assert SlotsAt(a, instances) == SlotsAt(a, instances - {i}) + {(a, i)};
    } else {
      assert SlotsAt(a, instances) == {};
    }
  }

  lemma SlotsInAdd(apps: map<Address, App>, keys: set<Address>, a: Address)
    requires a in apps && a !in keys
    ensures |SlotsIn(apps, keys + {a})| == |SlotsIn(apps, keys)| + |apps[a].instances|
  {
    SlotsAtCount(a, apps[a].instances);
    assert SlotsIn(apps, keys + {a}) == SlotsIn(apps, keys) + SlotsAt(a, apps[a].instances);
    assert SlotsIn(apps, keys) !! SlotsAt(a, apps[a].instances);
  }

  class WorkerState {
    const maxInstances: nat
    var apps: map<Address, App>
    var nextApp: nat
    var nextRun: nat
    ghost var owner: map<nat, nat>
    ghost var log: seq<Folded>

    ghost function Model(): Worker
      reads this
    {
      Worker(apps, maxInstances, nextApp, nextRun, owner, log)
    }

    constructor (maxInstances: nat)
      ensures Model() == Worker(map[], maxInstances, 0, 0, map[], [])
    {
      this.maxInstances := maxInstances;
      apps, nextApp, nextRun, owner, log := map[], 0, 0, map[], [];
    }

    /** Sums the instances over all apps. */
    method RunningInstances() returns (n: nat)
      ensures n == Running(Model())
    {
      n := 0;
      var rest := apps.Keys;
      while rest != {}
        invariant rest <= apps.Keys
        invariant n == |SlotsIn(apps, apps.Keys - rest)|
        decreases |rest|
      {
        var a :| a in rest;
        SlotsInAdd(apps, apps.Keys - rest, a);
        assert apps.Keys - (rest - {a}) == apps.Keys - rest + {a};
        n := n + |apps[a].instances|;
        rest := rest - {a};
      }
      assert SlotsIn(apps, apps.Keys - rest) == Slots(apps);
    }

    method AvailableSlots() returns (n: nat)
      ensures n == Available(Model())
    {
      var running := RunningInstances();
      n := if running <= maxInstances then maxInstances - running else 0;
    }

    method StartApp(a: Address, demand: bool) returns (res: Result<nat, Error>)
      modifies this
      ensures (Model(), res) == Started(old(Model()), a, demand)
    {
      if a !in apps {
        return Err(AppNotFound);
      }
      var app := apps[a];
      if !app.manifest.resizable && app.instances != {} && !demand {
        return Err(AlreadyStarted);
      }
      var sn := nextRun;
      nextRun := nextRun + 1;
      apps := apps[a := app.(instances := app.instances + {sn})];
      owner := owner[sn := app.sn];
      res := Ok(sn);
    }

    /** Takes the youngest instance out of the app and merges its reading. */
    method StopLast(a: Address, r: Readings) returns (sn: nat)
      requires a in apps && apps[a].instances != {}
      modifies this
      ensures sn == MaxOf(old(apps)[a].instances)
      ensures Model() == Stopped(old(Model()), a, sn, r)
    {
      var app := apps[a];
      ghost var m := MaxOf(app.instances);
      sn :| sn in app.instances && forall x :: x in app.instances ==> x <= sn;
      apps := apps[a := app.(instances := app.instances - {sn}, hist := Merged(app.hist, r(sn)))];
      log := log + [Folded(sn, app.sn, r(sn))];
    }

    method ReserveSlotIfNeeded(a: Address, order: seq<Address>, r: Readings)
      returns (res: Result<Option<nat>, Error>, ghost victim: Address)
      requires Elems(order) == apps.Keys
      modifies this
      ensures VictimOk(old(Model()), a, true, victim)
      ensures (Model(), res) == Reserved(old(Model()), a, victim, r)
    {
      victim := a;
      if a !in apps {
        return Err(AppNotFound), victim;
      }
      if apps[a].instances != {} {
        return Ok(None), victim;
      }
      var available := AvailableSlots();
      if available > 0 {
        return Ok(None), victim;
      }
      var k := 0;
      while k < |order|
        invariant 0 <= k <= |order|
        invariant Model() == old(Model())
        invariant forall j :: 0 <= j < k ==> order[j] !in Candidates(Model())
      {
        assert order[k] in Elems(order);
        if apps[order[k]].manifest.resizable && apps[order[k]].instances != {} {
          victim := order[k];
          assert victim in Candidates(Model());
          var sn := StopLast(order[k], r);
          return Ok(Some(sn)), victim;
        }
        k := k + 1;
      }
      assert Candidates(Model()) == {} by {
        assert forall b :: b in apps ==> b in Elems(order);
      }
      res := Err(NoAvailableSlots);
    }

    method ResizeAppInstances(a: Address, count: nat, demand: bool, order: seq<Address>, r: Readings)
      returns (res: Result<Change, Error>, ghost victim: Address)
      requires Elems(order) == apps.Keys
      modifies this
      ensures VictimOk(old(Model()), a, demand, victim)
      ensures (Model(), res) == Resized(old(Model()), a, count, demand, victim, r)
    {
      victim := a;
      var evicted := [];
      if demand {
        var reserved;
        reserved, victim := ReserveSlotIfNeeded(a, order, r);
        match reserved {
          case Err(e) => return Err(e), victim;
          case Ok(None) =>
          case Ok(Some(sn)) => evicted := [sn];
        }
      }
      var change := Adjust(a, count, demand, r);
      assert change.Ok? ==> [] + change.value.removed == change.value.removed;
      res := match change case Err(e) => Err(e) case Ok(c) => Ok(c.(removed := evicted + c.removed));
    }

    /** The part of `resize_app_instances` after the reservation. */
    method Adjust(a: Address, count: nat, demand: bool, r: Readings) returns (res: Result<Change, Error>)
      modifies this
      ensures (Model(), res) == Adjusted(old(Model()), a, count, demand, r)
    {
      hide StartedN, StoppedN, Available;
      if a !in apps {
        return Err(AppNotFound);
      }
      var current := |apps[a].instances|;
      if current < count {
        if apps[a].manifest.onDemand && !demand {
          return Err(OnDemandOnly);
        }
        var available := AvailableSlots();
        var created := StartMany(a, Min(available, count - current), demand);
        res := match created case Err(e) => Err(e) case Ok(sns) => Ok(Change(sns, []));
      } else {
        var removed := StopMany(a, current - count, r);
        res := Ok(Change([], removed));
      }
    }

    method StartMany(a: Address, creating: nat, demand: bool) returns (res: Result<seq<nat>, Error>)
      modifies this
      ensures (Model(), res) == StartedN(old(Model()), a, creating, demand)
    {
      var created, i := [], 0;
      while i < creating
        invariant 0 <= i <= creating
        invariant (Model(), Ok(created)) == StartedN(old(Model()), a, i, demand)
      {
        var started := StartApp(a, demand);
        if started.Err? {
          StartedNFails(old(Model()), a, i + 1, creating, demand);
          return Err(started.error);
        }
        created := created + [started.value];
        i := i + 1;
      }
      res := Ok(created);
    }

    method StopMany(a: Address, stopCount: nat, r: Readings) returns (removed: seq<nat>)
      requires a in apps && stopCount <= |apps[a].instances|
      modifies this
      ensures (Model(), removed) == StoppedN(old(Model()), a, stopCount, r)
    {
      hide Stopped;
      removed := [];
      for i := 0 to stopCount
        invariant (Model(), removed) == StoppedN(old(Model()), a, i, r)
      {
        assert Model().apps == apps;
        var sn := StopLast(a, r);
        removed := removed + [sn];
      }
    }

    method TryIncInstances(a: Address, order: seq<Address>, r: Readings)
      returns (res: Result<Option<nat>, Error>, ghost victim: Address)
      requires Elems(order) == apps.Keys
      modifies this
      ensures VictimOk(old(Model()), a, true, victim)
      ensures (Model(), res) == Increased(old(Model()), a, victim, r)
    {
      if a !in apps {
        return Err(AppNotFound), a;
      }
      var change;
      change, victim := ResizeAppInstances(a, |apps[a].instances| + 1, true, order, r);
      res := match change
             case Err(e) => Err(e)
             case Ok(c) => Ok(if c.created == [] then None else Some(c.created[0]));
    }

    /** The first lock region of `prepare_instance_for_query`. */
    method BeginQuery(a: Address, size: nat) returns (res: Result<QueryStart, Error>)
      modifies this
      ensures (Model(), res) == QueryBegun(old(Model()), a, size)
    {
      if a !in apps {
        return Err(AppNotFound);
      }
      var app := apps[a];
      if size > app.manifest.maxQuerySize {
        return Err(QueryTooLarge);
      }
      var startNeeded := !app.reuse || (app.instances == {} && app.manifest.onDemand);
      apps := apps[a := app.(onGoingQueries := (app.onGoingQueries + 1) % U64_MODULUS)];
      res := Ok(QueryStart(startNeeded, app.reuse));
    }

    method EndQuery(a: Address, instance: Option<nat>) returns (res: Result<(), Error>)
      modifies this
      ensures (Model(), res) == QueryEnded(old(Model()), a, instance)
    {
      if a !in apps {
        return Err(AppNotFound);
      }
      var app := apps[a];
      match instance {
        case Some(id) =>
          if id !in app.instances {
            return Err(InstanceNotFound);
          }
          apps := apps[a := app.(instances := app.instances - {id})];
        case None =>
          var rest := Decremented(app.onGoingQueries);
          app := app.(onGoingQueries := rest);
          if rest == 0 && app.manifest.onDemand {
            app := app.(instances := {});
          }
          apps := apps[a := app];
      }
      res := Ok(());
    }

    /** The lock region of `deploy_app` that records the app. */
    method DeployApp(a: Address, m: Manifest, reuse: bool) returns (res: Result<(), Error>)
      modifies this
      ensures (Model(), res) == Deployed(old(Model()), a, m, reuse)
    {
      if m.version != 1 || (m.resizable && m.onDemand) || m.labelLength > MAX_LABEL || m.sizeHint > MAX_MANIFEST_SIZE {
        return Err(InvalidManifest);
      }
      if a in apps {
        return Err(AppExists);
      }
      apps := apps[a := App(nextApp, m, ZERO, {}, 0, reuse)];
      nextApp := nextApp + 1;
      res := Ok(());
    }

    method RemoveApp(a: Address) returns (res: Result<(), Error>)
      modifies this
      ensures (Model(), res) == Removed(old(Model()), a)
    {
      if a !in apps {
        return Err(AppNotFound);
      }
      apps := apps - {a};
      res := Ok(());
    }

    /** What the clean-up task does once the instance has stopped. */
    method CleanUp(a: Address, sn: nat, r: Readings)
      modifies this
      ensures Model() == CleanedUp(old(Model()), a, sn, r)
    {
      if a in apps && sn in apps[a].instances {
        var app := apps[a];
        apps := apps[a := app.(instances := app.instances - {sn}, hist := Merged(app.hist, r(sn)))];
        log := log + [Folded(sn, app.sn, r(sn))];
      }
    }
  }

  /** A failed start ends the loop with what was started before. */
  lemma {:induction false} StartedNFails(w: Worker, a: Address, i: nat, n: nat, demand: bool)
    requires i <= n && StartedN(w, a, i, demand).1.Err?
    ensures StartedN(w, a, n, demand) == StartedN(w, a, i, demand)
    decreases n - i
  {
    if i < n {
      StartedNFails(w, a, i, n - 1, demand);
    }
  }
}
