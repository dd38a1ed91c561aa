/**
 * The worker's instance allocator on values: deployed apps with their running instances, the slot
 * limit, demand starts with eviction, resizing, query guards and metrics. Each function is one
 * lock region of the worker.
 */
module WorkerModel {
  import opened Common
  import opened Meters

  type Address = nat

  const MAX_LABEL := 64
  const MAX_MANIFEST_SIZE := 1024 * 16

  datatype Manifest = Manifest(
    version: int, resizable: bool, onDemand: bool, maxQuerySize: nat, labelLength: nat, sizeHint: nat)

  /** Instances are identified by their run sequence number, which is also their order. */
  datatype App = App(
    sn: nat, manifest: Manifest, hist: Metrics, instances: set<nat>, onGoingQueries: nat, reuse: bool)

  /** A reading that was merged into the history of the app with serial number `app`. */
  datatype Folded = Folded(sn: nat, app: nat, reading: Metrics)

  /**
   * `nextApp` and `nextRun` are the two process-wide counters. `owner` and `log` are history: the
   * app an instance was started for, and every reading merged so far.
   */
  datatype Worker = Worker(
    apps: map<Address, App>,
    maxInstances: nat,
    nextApp: nat,
    nextRun: nat,
    owner: map<nat, nat>,
    log: seq<Folded>)

  datatype Error =
    | AppNotFound
    | AppExists
    | InvalidManifest
    | NoAvailableSlots
    | OnDemandOnly
    | AlreadyStarted
    | QueryTooLarge
    | InstanceNotFound

  /** What every instance's meter shows at the moment of a step. */
  type Readings = nat -> Metrics

  ghost function MaxOf(s: set<nat>): (m: nat)
    requires s != {}
    ensures m in s
    ensures forall x :: x in s ==> x <= m
  {
    var x :| x in s;
    if s == {x} then x
    else
      var y := MaxOf(s - {x});
      assert s == {x} + (s - {x});
      if x > y then x else y
  }

  // Slots

  ghost function Slots(apps: map<Address, App>): set<(Address, nat)> {
    set a, i | a in apps && i in apps[a].instances :: (a, i)
  }

  ghost function Running(w: Worker): nat {
    |Slots(w.apps)|
  }

  ghost function Available(w: Worker): nat {
    if Running(w) <= w.maxInstances then w.maxInstances - Running(w) else 0
  }

  /** The session metrics of an app: its history, then its instances in sequence order. */
  ghost function AppMetrics(hist: Metrics, instances: set<nat>, r: Readings): Metrics
    decreases |instances|
  {
    if instances == {} then hist
    else
      var m := MaxOf(instances);
      Merged(AppMetrics(hist, instances - {m}, r), r(m))
  }

  // Primitive changes

  /** Starts one instance. */
  ghost function Started(w: Worker, a: Address, demand: bool): (Worker, Result<nat, Error>) {
    if a !in w.apps then (w, Err(AppNotFound))
    else
      var app := w.apps[a];
      if !app.manifest.resizable && app.instances != {} && !demand then (w, Err(AlreadyStarted))
      else
        (w.(apps := w.apps[a := app.(instances := app.instances + {w.nextRun})],
            nextRun := w.nextRun + 1,
            owner := w.owner[w.nextRun := app.sn]),
         Ok(w.nextRun))
  }

  /** Takes one instance out and merges its reading into the app's history. */
  ghost function Stopped(w: Worker, a: Address, sn: nat, r: Readings): Worker
    requires a in w.apps
  {
    var app := w.apps[a];
    w.(apps := w.apps[a := app.(instances := app.instances - {sn}, hist := Merged(app.hist, r(sn)))],
       log := w.log + [Folded(sn, app.sn, r(sn))])
  }

  ghost function StartedN(w: Worker, a: Address, n: nat, demand: bool): (Worker, Result<seq<nat>, Error>) {
    if n == 0 then (w, Ok([]))
    else
      match StartedN(w, a, n - 1, demand)
      case (w1, Err(e)) => (w1, Err(e))
      case (w1, Ok(sns)) =>
        match Started(w1, a, demand)
        case (w2, Err(e)) => (w2, Err(e))
        case (w2, Ok(sn)) => (w2, Ok(sns + [sn]))
  }

  /** Stops the `n` youngest instances. */
  ghost function StoppedN(w: Worker, a: Address, n: nat, r: Readings): (Worker, seq<nat>)
    requires a in w.apps && n <= |w.apps[a].instances|
    ensures StoppedN(w, a, n, r).0.apps.Keys == w.apps.Keys
    ensures |StoppedN(w, a, n, r).0.apps[a].instances| == |w.apps[a].instances| - n
  {
    if n == 0 then (w, [])
    else
      var (w1, sns) := StoppedN(w, a, n - 1, r);
      var sn := MaxOf(w1.apps[a].instances);
      (Stopped(w1, a, sn, r), sns + [sn])
  }

  // Lock regions

  /** Apps whose instances may be evicted; the table's iteration order decides which one is found first. */
  ghost function Candidates(w: Worker): set<Address> {
    set a | a in w.apps && w.apps[a].manifest.resizable && w.apps[a].instances != {}
  }

  ghost predicate MustEvict(w: Worker, a: Address) {
    a in w.apps && w.apps[a].instances == {} && Available(w) == 0
  }

  ghost predicate VictimOk(w: Worker, a: Address, demand: bool, victim: Address) {
    demand && MustEvict(w, a) && Candidates(w) != {} ==> victim in Candidates(w)
  }

  ghost function Reserved(w: Worker, a: Address, victim: Address, r: Readings): (Worker, Result<Option<nat>, Error>)
    requires VictimOk(w, a, true, victim)
  {
    if a !in w.apps then (w, Err(AppNotFound))
    else if !MustEvict(w, a) then (w, Ok(None))
    else if Candidates(w) == {} then (w, Err(NoAvailableSlots))
    else
      var sn := MaxOf(w.apps[victim].instances);
      (Stopped(w, victim, sn, r), Ok(Some(sn)))
  }

  datatype Change = Change(created: seq<nat>, removed: seq<nat>)

  /** `resize_app_instances` after the reservation. */
  ghost function Adjusted(w: Worker, a: Address, count: nat, demand: bool, r: Readings): (Worker, Result<Change, Error>) {
    if a !in w.apps then (w, Err(AppNotFound))
    else
      var current := |w.apps[a].instances|;
      if current < count then
        if w.apps[a].manifest.onDemand && !demand then (w, Err(OnDemandOnly))
        else
          match StartedN(w, a, Min(Available(w), count - current), demand)
          case (w', Err(e)) => (w', Err(e))
          case (w', Ok(sns)) => (w', Ok(Change(sns, [])))
      else
        var (w', sns) := StoppedN(w, a, current - count, r);
        (w', Ok(Change([], sns)))
  }

  ghost function Resized(w: Worker, a: Address, count: nat, demand: bool, victim: Address, r: Readings): (Worker, Result<Change, Error>)
    requires VictimOk(w, a, demand, victim)
  {
    if !demand then Adjusted(w, a, count, demand, r)
    else
      match Reserved(w, a, victim, r)
      case (w1, Err(e)) => (w1, Err(e))
      case (w1, Ok(evicted)) =>
        match Adjusted(w1, a, count, demand, r)
        case (w2, Err(e)) => (w2, Err(e))
        case (w2, Ok(c)) => (w2, Ok(c.(removed := (if evicted.Some? then [evicted.value] else []) + c.removed)))
  }

  /** `try_inc_instances`: one more instance than now, on demand. */
  ghost function Increased(w: Worker, a: Address, victim: Address, r: Readings): (Worker, Result<Option<nat>, Error>)
    requires VictimOk(w, a, true, victim)
  {
    if a !in w.apps then (w, Err(AppNotFound))
    else
      match Resized(w, a, |w.apps[a].instances| + 1, true, victim, r)
      case (w', Err(e)) => (w', Err(e))
      case (w', Ok(c)) => (w', Ok(if c.created == [] then None else Some(c.created[0])))
  }

  ghost predicate ManifestOk(m: Manifest) {
    m.version == 1 && !(m.resizable && m.onDemand) && m.labelLength <= MAX_LABEL && m.sizeHint <= MAX_MANIFEST_SIZE
  }

  ghost function Deployed(w: Worker, a: Address, m: Manifest, reuse: bool): (Worker, Result<(), Error>) {
    if !ManifestOk(m) then (w, Err(InvalidManifest))
    else if a in w.apps then (w, Err(AppExists))
    else (w.(apps := w.apps[a := App(w.nextApp, m, ZERO, {}, 0, reuse)], nextApp := w.nextApp + 1), Ok(()))
  }

  ghost function Removed(w: Worker, a: Address): (Worker, Result<(), Error>) {
    if a !in w.apps then (w, Err(AppNotFound)) else (w.(apps := w.apps - {a}), Ok(()))
  }

  /** The clean-up task of an instance, run when its VM has stopped. */
  ghost function CleanedUp(w: Worker, a: Address, sn: nat, r: Readings): Worker {
    if a in w.apps && sn in w.apps[a].instances then Stopped(w, a, sn, r) else w
  }

  datatype QueryStart = QueryStart(startNeeded: bool, reuse: bool)

  ghost function QueryBegun(w: Worker, a: Address, size: nat): (Worker, Result<QueryStart, Error>) {
    if a !in w.apps then (w, Err(AppNotFound))
    else
      var app := w.apps[a];
      if size > app.manifest.maxQuerySize then (w, Err(QueryTooLarge))
      else
        (w.(apps := w.apps[a := app.(onGoingQueries := (app.onGoingQueries + 1) % U64_MODULUS)]),
         Ok(QueryStart(!app.reuse || (app.instances == {} && app.manifest.onDemand), app.reuse)))
  }

  /** The counter wraps below zero, as a 64-bit `usize` does in a release build. */
  function Decremented(n: nat): nat {
    if n == 0 then U64_MODULUS - 1 else n - 1
  }

  ghost function QueryEnded(w: Worker, a: Address, instance: Option<nat>): (Worker, Result<(), Error>) {
    if a !in w.apps then (w, Err(AppNotFound))
    else
      var app := w.apps[a];
      match instance
      case Some(id) =>
        if id !in app.instances then (w, Err(InstanceNotFound))
        else (w.(apps := w.apps[a := app.(instances := app.instances - {id})]), Ok(()))
      case None =>
        var rest := Decremented(app.onGoingQueries);
        var left := if rest == 0 && app.manifest.onDemand then {} else app.instances;
        (w.(apps := w.apps[a := app.(onGoingQueries := rest, instances := left)]), Ok(()))
  }
}
