/**
 * The module compilation service: a cache, a queue of hashes to compile, the callers that wait for
 * each hash, and a bounded number of compiler threads. Each function is one lock region.
 */
module ModuleLoaders {
  import opened Common

  type Hash = nat

  /** What one compilation of a hash produced; `entry` is the serial number of the request it served. */
  datatype Outcome = Compiled(hash: Hash, entry: nat) | Failed(hash: Hash, entry: nat)

  /** The broadcast channel of one compilation, with the callers subscribed to it. */
  datatype Entry = Entry(serial: nat, subscribers: set<nat>)

  /** `cache` is ordered from the most to the least recently used module. */
  datatype Loader = Loader(
    cache: seq<Outcome>,
    cacheCap: nat,
    compiling: map<Hash, Entry>,
    compilingTasks: nat,
    queue: set<Hash>,
    maxTasks: nat,
    queueCap: nat,
    nextEntry: nat)

  datatype Reply = Hit(module_: Outcome) | Joined(serial: nat) | Queued(serial: nat, spawn: bool) | QueueFull

  // The LRU cache

  function Find(cache: seq<Outcome>, h: Hash): Option<Outcome> {
    if cache == [] then None
    else if cache[0].hash == h then Some(cache[0])
    else Find(cache[1..], h)
  }

  function Without(cache: seq<Outcome>, h: Hash): seq<Outcome> {
    if cache == [] then []
    else if cache[0].hash == h then Without(cache[1..], h)
    else [cache[0]] + Without(cache[1..], h)
  }

  function Put(cache: seq<Outcome>, cap: nat, m: Outcome): seq<Outcome> {
    var all := [m] + Without(cache, m.hash);
    if |all| <= cap then all else all[..cap]
  }

  // Lock regions

  /** The locked part of `load_module`. */
  ghost function Requested(l: Loader, caller: nat, h: Hash): (Loader, Reply) {
    match Find(l.cache, h)
    case Some(m) => (l.(cache := Put(l.cache, l.cacheCap, m)), Hit(m))
    case None =>
      if h in l.compiling then
        var e := l.compiling[h];
        (l.(compiling := l.compiling[h := e.(subscribers := e.subscribers + {caller})]), Joined(e.serial))
      else if |l.queue| >= l.queueCap then (l, QueueFull)
      else
        var spawn := l.compilingTasks < l.maxTasks;
        (l.(queue := l.queue + {h},
            compiling := l.compiling[h := Entry(l.nextEntry, {caller})],
            compilingTasks := if spawn then l.compilingTasks + 1 else l.compilingTasks,
            nextEntry := l.nextEntry + 1),
         Queued(l.nextEntry, spawn))
  }

  /** A compiler thread asks for work, or retires. */
  ghost function Popped(l: Loader): (Loader, Option<Hash>)
    requires l.queue != {} || l.compilingTasks > 0
  {
    if l.queue == {} then (l.(compilingTasks := l.compilingTasks - 1), None)
    else (l.(queue := l.queue - {MinOf(l.queue)}), Some(MinOf(l.queue)))
  }

  /** A compiler thread is done with `h`; `None` is the branch logged as a bug. */
  ghost function Finished(l: Loader, h: Hash, ok: bool): (Loader, Option<(Entry, Outcome)>) {
    if h !in l.compiling then (l, None)
    else
      var e := l.compiling[h];
      var m := if ok then Compiled(h, e.serial) else Failed(h, e.serial);
      (l.(compiling := l.compiling - {h}, cache := if ok then Put(l.cache, l.cacheCap, m) else l.cache),
       Some((e, m)))
  }

  /** Everything queued, compiled in hash order by one thread that then retires. */
  ghost function Served(l: Loader, compile: Hash -> bool): Loader
    requires l.compilingTasks > 0
    decreases |l.queue|
  {
    match Popped(l)
    case (l', None) => l'
    case (l', Some(h)) => Served(Finished(l', h, compile(h)).0, compile)
  }

  const MAX_COMPILATION_TASKS := 2
  const QUEUE_CAP := 128

  class ModuleLoader {
    const cacheCap: nat
    var cache: seq<Outcome>
    var compiling: map<Hash, Entry>
    var compilingTasks: nat
    var queue: set<Hash>
    var nextEntry: nat

    ghost function Model(): Loader
      reads this
    {
      Loader(cache, cacheCap, compiling, compilingTasks, queue, MAX_COMPILATION_TASKS, QUEUE_CAP, nextEntry)
    }

    constructor (cacheSize: nat)
      ensures Model() == Loader([], Max(cacheSize, 1), map[], 0, {}, MAX_COMPILATION_TASKS, QUEUE_CAP, 0)
    {
      cacheCap := Max(cacheSize, 1);
      cache, compiling, compilingTasks, queue, nextEntry := [], map[], 0, {}, 0;
    }

    method LoadModule(caller: nat, h: Hash) returns (reply: Reply)
      modifies this
      ensures (Model(), reply) == Requested(old(Model()), caller, h)
    {
      var found := Find(cache, h);
      if found.Some? {
        cache := Put(cache, cacheCap, found.value);
        return Hit(found.value);
      }
      if h in compiling {
        var e := compiling[h];
        compiling := compiling[h := e.(subscribers := e.subscribers + {caller})];
        return Joined(e.serial);
      }
      if |queue| >= QUEUE_CAP {
        return QueueFull;
      }
      queue := queue + {h};
      compiling := compiling[h := Entry(nextEntry, {caller})];
      var spawn := compilingTasks < MAX_COMPILATION_TASKS;
      if spawn {
        compilingTasks := compilingTasks + 1;
      }
      reply := Queued(nextEntry, spawn);
      nextEntry := nextEntry + 1;
    }

    method NextHash() returns (hash: Option<Hash>)
      requires queue != {} || compilingTasks > 0
      modifies this
      ensures (Model(), hash) == Popped(old(Model()))
    {
      if queue == {} {
        compilingTasks := compilingTasks - 1;
        return None;
      }
      ghost var first := MinOf(queue);
      var h :| h in queue && forall x :: x in queue ==> h <= x;
      queue := queue - {h};
      hash := Some(h);
    }

    method FinishCompilation(h: Hash, ok: bool) returns (sent: Option<(Entry, Outcome)>)
      modifies this
      ensures (Model(), sent) == Finished(old(Model()), h, ok)
    {
      if h !in compiling {
        return None;
      }
      var e := compiling[h];
      compiling := compiling - {h};
      var m := if ok then Compiled(h, e.serial) else Failed(h, e.serial);
      if ok {
        cache := Put(cache, cacheCap, m);
      }
      sent := Some((e, m));
    }

    /** The loop of one compiler thread that nobody interrupts: it empties the queue, then retires. */
    method ServeCompilation(compile: Hash -> bool)
      requires compilingTasks > 0 && queue <= compiling.Keys
      modifies this
      ensures queue == {} && compiling == old(compiling) - old(queue)
      ensures Model() == Served(old(Model()), compile) && compilingTasks == old(compilingTasks) - 1
    {
      hide Put, Find, MinOf;
      while true
        invariant compilingTasks == old(compilingTasks)
        invariant Served(Model(), compile) == Served(old(Model()), compile)
        invariant queue <= old(queue) && queue <= compiling.Keys
        invariant compiling == old(compiling) - (old(queue) - queue)
        decreases |queue|
      {
        ghost var before := queue;
        var hash := NextHash();
        if hash.None? {
          break;
        }
        RemoveOneMore(old(compiling), old(queue), before, hash.value);
        var sent := FinishCompilation(hash.value, compile(hash.value));
      }
    }
  }

  lemma RemoveOneMore(compiling: map<Hash, Entry>, all: set<Hash>, left: set<Hash>, h: Hash)
    requires h in left && left <= all
    ensures all - (left - {h}) == (all - left) + {h}
    ensures compiling - (all - (left - {h})) == (compiling - (all - left)) - {h}
  {
    assert all - (left - {h}) == (all - left) + {h};
  }
}
