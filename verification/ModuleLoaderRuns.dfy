/**
 * Every interleaving of callers and compiler threads: each hash is compiled by one thread at a
 * time, every caller gets the outcome of the compilation it joined, and the service drains.
 */
module ModuleLoaderRuns {
  import opened Common
  import opened ModuleLoaders

  datatype Wait = Wait(hash: Hash, serial: nat)

  /**
   * `threads` are the compiler threads with the hash each one holds. `joined` records the request
   * of every caller that had to wait, `waiting` those without an answer yet, `delivered` the
   * answers, and `retired` the outcome that ended each request entry.
   */
  datatype World = World(
    loader: Loader,
    threads: map<nat, Option<Hash>>,
    joined: map<nat, Wait>,
    waiting: set<nat>,
    delivered: map<nat, Outcome>,
    retired: map<nat, Outcome>)

  datatype Step =
    | Load(caller: nat, hash: Hash, thread: nat)
    | Cancel(caller: nat)
    | Pop(thread: nat)
    | Finish(thread: nat, ok: bool)

  ghost function Init(cacheCap: nat, maxTasks: nat, queueCap: nat): World {
    World(Loader([], cacheCap, map[], 0, {}, maxTasks, queueCap, 0), map[], map[], {}, map[], map[])
  }

  ghost predicate Enabled(s: World, step: Step) {
    match step
    case Load(caller, _, thread) => caller !in s.joined && caller !in s.delivered && thread !in s.threads
    case Cancel(caller) => caller in s.waiting
    case Pop(thread) => thread in s.threads && s.threads[thread] == None && (s.loader.queue != {} || s.loader.compilingTasks > 0)
    case Finish(thread, _) => thread in s.threads && s.threads[thread].Some?
  }

  ghost function Loaded(s: World, caller: nat, h: Hash, thread: nat): World {
    var (l, reply) := Requested(s.loader, caller, h);
    match reply
    case Hit(m) => s.(loader := l, delivered := s.delivered[caller := m])
    case Joined(serial) => s.(loader := l, joined := s.joined[caller := Wait(h, serial)], waiting := s.waiting + {caller})
    case Queued(serial, spawn) =>
      s.(loader := l, joined := s.joined[caller := Wait(h, serial)], waiting := s.waiting + {caller},
         threads := if spawn then s.threads[thread := None] else s.threads)
    case QueueFull => s
  }

  ghost function ThreadPopped(s: World, thread: nat): World
    requires Enabled(s, Pop(thread))
  {
    match Popped(s.loader)
    case (l, None) => s.(loader := l, threads := s.threads - {thread})
    case (l, Some(h)) => s.(loader := l, threads := s.threads[thread := Some(h)])
  }

  /** The broadcast reaches every subscriber that is still waiting. */
  ghost function ThreadFinished(s: World, thread: nat, ok: bool): World
    requires Enabled(s, Finish(thread, ok))
  {
    var s1 := s.(threads := s.threads[thread := None]);
    match Finished(s.loader, s.threads[thread].value, ok)
    case (l, None) => s1.(loader := l)
    case (l, Some((e, m))) =>
      s1.(loader := l,
          waiting := s.waiting - e.subscribers,
          delivered := s.delivered + map c | c in s.waiting && c in e.subscribers :: m,
          retired := s.retired[e.serial := m])
  }

  ghost function Apply(s: World, step: Step): World
    requires Enabled(s, step)
  {
    match step
    case Load(caller, hash, thread) => Loaded(s, caller, hash, thread)
    case Cancel(caller) => s.(waiting := s.waiting - {caller})
    case Pop(thread) => ThreadPopped(s, thread)
    case Finish(thread, ok) => ThreadFinished(s, thread, ok)
  }

  ghost predicate IsRun(s: World, steps: seq<Step>)
    decreases |steps|
  {
    steps == [] || (Enabled(s, steps[0]) && IsRun(Apply(s, steps[0]), steps[1..]))
  }

  ghost function Exec(s: World, steps: seq<Step>): World
    requires IsRun(s, steps)
    decreases |steps|
  {
    if steps == [] then s else Exec(Apply(s, steps[0]), steps[1..])
  }

  ghost predicate Reachable(s: World, cacheCap: nat, maxTasks: nat, queueCap: nat) {
    exists steps :: IsRun(Init(cacheCap, maxTasks, queueCap), steps) && Exec(Init(cacheCap, maxTasks, queueCap), steps) == s
  }

  // Partition of the work

  ghost function Held(threads: map<nat, Option<Hash>>): set<Hash> {
    set t | t in threads && threads[t].Some? :: threads[t].value
  }

  /** No two threads hold the same hash. */
  ghost predicate OneHolder(threads: map<nat, Option<Hash>>) {
    forall t, u :: t in threads && u in threads && threads[t].Some? && threads[t] == threads[u] ==> t == u
  }

  ghost predicate Splits(all: set<Hash>, queue: set<Hash>, held: set<Hash>) {
    all == queue + held && queue !! held
  }

  /** A hash is in progress exactly when it is queued or held by one thread, never both. */
  ghost predicate PartitionOk(s: World) {
    Splits(s.loader.compiling.Keys, s.loader.queue, Held(s.threads)) && OneHolder(s.threads)
  }

  ghost predicate BoundsOk(s: World) {
    && 1 <= s.loader.maxTasks
    && s.loader.compilingTasks == |s.threads| <= s.loader.maxTasks
    && |s.loader.queue| <= s.loader.queueCap
    && (s.loader.queue != {} ==> s.threads != map[])
  }

  // Answers

  ghost predicate SerialsOk(s: World) {
    && (forall h :: h in s.loader.compiling ==> s.loader.compiling[h].serial < s.loader.nextEntry && s.loader.compiling[h].serial !in s.retired)
    && (forall h, g :: h in s.loader.compiling && g in s.loader.compiling && s.loader.compiling[h].serial == s.loader.compiling[g].serial ==> h == g)
    && (forall k :: k in s.retired ==> k < s.loader.nextEntry && s.retired[k].entry == k)
  }

  /** A waiting caller is subscribed to the entry it joined. */
  ghost predicate WaitingOk(s: World) {
    forall c :: c in s.waiting ==>
      && c in s.joined && c !in s.delivered
      && s.joined[c].hash in s.loader.compiling
      && s.loader.compiling[s.joined[c].hash].serial == s.joined[c].serial
      && c in s.loader.compiling[s.joined[c].hash].subscribers
  }

  /** Nobody is subscribed to an entry other than the one joined. */
  ghost predicate SubscribersOk(s: World) {
    forall h, c :: h in s.loader.compiling && c in s.loader.compiling[h].subscribers ==>
      c in s.joined && s.joined[c] == Wait(h, s.loader.compiling[h].serial)
  }

  /** An answered caller got the outcome that retired its entry, for the hash it asked for. */
  ghost predicate AnswersOk(s: World) {
    forall c :: c in s.joined && c in s.delivered ==>
      && s.joined[c].serial in s.retired
      && s.delivered[c] == s.retired[s.joined[c].serial]
      && s.delivered[c].hash == s.joined[c].hash
  }

  /** A cache holds successful compilations only, at most one per hash. */
  ghost predicate SoundCache(cache: seq<Outcome>, retired: map<nat, Outcome>) {
    && (forall k :: 0 <= k < |cache| ==> cache[k].Compiled? && cache[k].entry in retired && retired[cache[k].entry] == cache[k])
    && DistinctHashes(cache)
  }

  ghost predicate DistinctHashes(cache: seq<Outcome>) {
    forall j, k :: 0 <= j < k < |cache| ==> cache[j].hash != cache[k].hash
  }

  ghost predicate CacheOk(s: World) {
    |s.loader.cache| <= s.loader.cacheCap && SoundCache(s.loader.cache, s.retired)
  }

  ghost predicate Inv(s: World) {
    PartitionOk(s) && BoundsOk(s) && SerialsOk(s) && WaitingOk(s) && SubscribersOk(s) && AnswersOk(s) && CacheOk(s)
  }

  // Partition and bounds

  lemma HeldByIdle(threads: map<nat, Option<Hash>>, t: nat)
    requires t in threads ==> threads[t].None?
    ensures Held(threads[t := None]) == Held(threads) == Held(threads - {t})
    ensures OneHolder(threads) ==> OneHolder(threads[t := None]) && OneHolder(threads - {t})
  {
    assert forall u :: u in threads && threads[u].Some? ==> u in threads[t := None] && threads[t := None][u] == threads[u];
    assert forall u :: u in threads && threads[u].Some? ==> u in threads - {t} && (threads - {t})[u] == threads[u];
  }

  lemma HeldByTaker(threads: map<nat, Option<Hash>>, t: nat, h: Hash)
    requires t in threads && threads[t].None? && h !in Held(threads) && OneHolder(threads)
    ensures Held(threads[t := Some(h)]) == Held(threads) + {h}
    ensures OneHolder(threads[t := Some(h)])
  {
    var threads' := threads[t := Some(h)];
    assert t in threads' && threads'[t].Some? && threads'[t].value == h;
    assert forall u :: u in threads && threads[u].Some? ==> u in threads' && threads'[u] == threads[u];
    assert forall u :: u in threads && threads[u].Some? ==> threads[u].value in Held(threads);
  }

  lemma HeldByGiver(threads: map<nat, Option<Hash>>, t: nat)
    requires t in threads && threads[t].Some? && OneHolder(threads)
    ensures threads[t].value in Held(threads)
    ensures Held(threads[t := None]) == Held(threads) - {threads[t].value}
    ensures OneHolder(threads[t := None])
  {
    assert forall u :: u in threads && u != t && threads[u].Some? ==> u in threads[t := None] && threads[t := None][u] == threads[u];
  }

  lemma SplitSteps(all: set<Hash>, queue: set<Hash>, held: set<Hash>, h: Hash)
    requires Splits(all, queue, held)
    ensures h !in all ==> Splits(all + {h}, queue + {h}, held)
    ensures h in queue ==> h !in held && Splits(all, queue - {h}, held + {h})
    ensures h in held ==> h in all && Splits(all - {h}, queue, held - {h})
  {}

  lemma UpdatedKeys(compiling: map<Hash, Entry>, h: Hash, e: Entry)
    ensures compiling[h := e].Keys == compiling.Keys + {h}
    ensures h in compiling ==> compiling[h := e].Keys == compiling.Keys
  {}

  lemma RequestedWork(l: Loader, caller: nat, h: Hash)
    ensures var (l', reply) := Requested(l, caller, h);
            if reply.Queued? then
              && h !in l.compiling && l'.queue == l.queue + {h}
              && l'.compiling.Keys == l.compiling.Keys + {h}
            else
              l'.queue == l.queue && l'.compiling.Keys == l.compiling.Keys
  {
    hide Find, Put;
    var l' := Requested(l, caller, h).0;
    if Find(l.cache, h).Some? {
      assert l'.compiling == l.compiling;
    } else if h in l.compiling {
      var e := l.compiling[h];
      UpdatedKeys(l.compiling, h, e.(subscribers := e.subscribers + {caller}));
    } else if |l.queue| >= l.queueCap {
      assert l' == l;
    } else {
      UpdatedKeys(l.compiling, h, Entry(l.nextEntry, {caller}));
    }
  }

  /** A request either leaves the work alone or adds one hash to what is queued and in progress. */
  lemma LoadedWork(s: World, caller: nat, h: Hash, thread: nat)
    requires thread !in s.threads
    ensures var s' := Loaded(s, caller, h, thread);
            && (s'.threads == s.threads || s'.threads == s.threads[thread := None])
            && (|| (s'.loader.queue == s.loader.queue && s'.loader.compiling.Keys == s.loader.compiling.Keys)
                || (h !in s.loader.compiling && s'.loader.queue == s.loader.queue + {h}
                    && s'.loader.compiling.Keys == s.loader.compiling.Keys + {h}))
  {
    RequestedWork(s.loader, caller, h);
    hide Requested;
    match Requested(s.loader, caller, h).1 {
      case Hit(_) =>
      case Joined(_) =>
      case Queued(_, _) =>
      case QueueFull =>
    }
  }

  lemma LoadKeepsPartition(s: World, caller: nat, h: Hash, thread: nat)
    requires PartitionOk(s) && Enabled(s, Load(caller, h, thread))
    ensures PartitionOk(Loaded(s, caller, h, thread))
  {
    hide Loaded, Held, OneHolder, Splits;
    HeldByIdle(s.threads, thread);
    SplitSteps(s.loader.compiling.Keys, s.loader.queue, Held(s.threads), h);
    LoadedWork(s, caller, h, thread);
  }

  lemma LoadKeepsBounds(s: World, caller: nat, h: Hash, thread: nat)
    requires BoundsOk(s) && Enabled(s, Load(caller, h, thread))
    ensures BoundsOk(Loaded(s, caller, h, thread))
  {
    hide Find, Put;
    assert |s.threads[thread := None]| == |s.threads| + 1;
    assert thread in s.threads[thread := None];
    assert |s.loader.queue + {h}| <= |s.loader.queue| + 1;
    if Find(s.loader.cache, h).Some? {
    } else if h in s.loader.compiling {
    } else if |s.loader.queue| < s.loader.queueCap {
    }
  }

  lemma PopKeepsPartition(s: World, thread: nat)
    requires PartitionOk(s) && Enabled(s, Pop(thread))
    ensures PartitionOk(ThreadPopped(s, thread))
  {
    HeldByIdle(s.threads, thread);
    if s.loader.queue != {} {
      var h := MinOf(s.loader.queue);
      SplitSteps(s.loader.compiling.Keys, s.loader.queue, Held(s.threads), h);
      HeldByTaker(s.threads, thread, h);
    }
    hide Held, OneHolder, Splits;
  }

  lemma PopKeepsBounds(s: World, thread: nat)
    requires BoundsOk(s) && Enabled(s, Pop(thread))
    ensures BoundsOk(ThreadPopped(s, thread))
  {
    var s' := ThreadPopped(s, thread);
    if s.loader.queue == {} {
      assert s'.threads.Keys == s.threads.Keys - {thread};
      assert |s'.threads| == |s.threads| - 1;
    } else {
      assert s'.threads.Keys == s.threads.Keys;
      assert |s'.threads| == |s.threads|;
      assert thread in s'.threads;
    }
  }

  /** The branch logged as a bug is never taken. */
  lemma FinishFindsEntry(s: World, thread: nat)
    requires PartitionOk(s) && thread in s.threads && s.threads[thread].Some?
    ensures s.threads[thread].value in s.loader.compiling
  {
    HeldByGiver(s.threads, thread);
  }

  lemma FinishKeepsPartition(s: World, thread: nat, ok: bool)
    requires PartitionOk(s) && Enabled(s, Finish(thread, ok))
    ensures PartitionOk(ThreadFinished(s, thread, ok))
  {
    var h := s.threads[thread].value;
    FinishFindsEntry(s, thread);
    HeldByGiver(s.threads, thread);
    SplitSteps(s.loader.compiling.Keys, s.loader.queue, Held(s.threads), h);
    hide Put, Held, OneHolder, Splits;
    assert ThreadFinished(s, thread, ok).loader.compiling.Keys == s.loader.compiling.Keys - {h};
  }

  lemma FinishKeepsBounds(s: World, thread: nat, ok: bool)
    requires BoundsOk(s) && Enabled(s, Finish(thread, ok))
    ensures BoundsOk(ThreadFinished(s, thread, ok))
  {
    hide Put;
    assert s.threads[thread := None].Keys == s.threads.Keys;
    assert |s.threads[thread := None]| == |s.threads|;
    assert thread in s.threads[thread := None];
  }

  // Answers

  lemma LoadKeepsSerials(s: World, caller: nat, h: Hash, thread: nat)
    requires SerialsOk(s) && Enabled(s, Load(caller, h, thread))
    ensures SerialsOk(Loaded(s, caller, h, thread))
  {
    hide Find, Put;
    if Find(s.loader.cache, h).Some? {
    } else if h in s.loader.compiling {
    } else if |s.loader.queue| < s.loader.queueCap {
    }
  }

  lemma LoadKeepsWaiting(s: World, caller: nat, h: Hash, thread: nat)
    requires WaitingOk(s) && Enabled(s, Load(caller, h, thread))
    ensures WaitingOk(Loaded(s, caller, h, thread))
  {
    hide Find, Put;
    if Find(s.loader.cache, h).Some? {
    } else if h in s.loader.compiling {
    } else if |s.loader.queue| < s.loader.queueCap {
    }
  }

  lemma LoadKeepsSubscribers(s: World, caller: nat, h: Hash, thread: nat)
    requires SubscribersOk(s) && Enabled(s, Load(caller, h, thread))
    ensures SubscribersOk(Loaded(s, caller, h, thread))
  {
    hide Find, Put;
    if Find(s.loader.cache, h).Some? {
    } else if h in s.loader.compiling {
    } else if |s.loader.queue| < s.loader.queueCap {
    }
  }

  lemma LoadKeepsAnswers(s: World, caller: nat, h: Hash, thread: nat)
    requires AnswersOk(s) && Enabled(s, Load(caller, h, thread))
    ensures AnswersOk(Loaded(s, caller, h, thread))
  {
    hide Find, Put;
    if Find(s.loader.cache, h).Some? {
    } else if h in s.loader.compiling {
    } else if |s.loader.queue| < s.loader.queueCap {
    }
  }

  lemma FinishKeepsSerials(s: World, thread: nat, ok: bool)
    requires SerialsOk(s) && Enabled(s, Finish(thread, ok))
    ensures SerialsOk(ThreadFinished(s, thread, ok))
  {
    hide Put;
  }

  lemma FinishKeepsWaiting(s: World, thread: nat, ok: bool)
    requires WaitingOk(s) && SubscribersOk(s) && Enabled(s, Finish(thread, ok))
    ensures WaitingOk(ThreadFinished(s, thread, ok)) && SubscribersOk(ThreadFinished(s, thread, ok))
  {
    hide Put;
  }

  lemma FinishKeepsAnswers(s: World, thread: nat, ok: bool)
    requires SerialsOk(s) && SubscribersOk(s) && AnswersOk(s) && Enabled(s, Finish(thread, ok))
    ensures AnswersOk(ThreadFinished(s, thread, ok))
  {
    hide Put;
  }

  // Cache

  lemma {:induction false} FindFacts(cache: seq<Outcome>, h: Hash)
    ensures Find(cache, h).Some? ==> Find(cache, h).value in cache && Find(cache, h).value.hash == h
    ensures Find(cache, h).None? <==> forall k :: 0 <= k < |cache| ==> cache[k].hash != h
  {
    if cache != [] {
      FindFacts(cache[1..], h);
    }
  }

  lemma {:induction false} WithoutFacts(cache: seq<Outcome>, h: Hash, retired: map<nat, Outcome>)
    requires SoundCache(cache, retired)
    ensures SoundCache(Without(cache, h), retired)
    ensures forall m :: m in Without(cache, h) <==> m in cache && m.hash != h
    ensures |Without(cache, h)| <= |cache|
  {
    if cache != [] {
      WithoutFacts(cache[1..], h, retired);
      assert cache == [cache[0]] + cache[1..];
      assert forall m :: m in cache[1..] ==> m.hash != cache[0].hash;
    }
  }

  /** Putting a module in makes it the only one for its hash, within the capacity. */
  lemma PutFacts(cache: seq<Outcome>, cap: nat, m: Outcome, retired: map<nat, Outcome>)
    requires SoundCache(cache, retired)
    requires m.Compiled? && m.entry in retired && retired[m.entry] == m
    ensures SoundCache(Put(cache, cap, m), retired)
    ensures |Put(cache, cap, m)| <= cap
    ensures cap > 0 ==> Find(Put(cache, cap, m), m.hash) == Some(m)
  {
    WithoutFacts(cache, m.hash, retired);
    var rest := Without(cache, m.hash);
    assert forall k :: 0 <= k < |rest| ==> rest[k] in rest;
  }

  lemma SoundCacheGrows(cache: seq<Outcome>, retired: map<nat, Outcome>, k: nat, m: Outcome)
    requires SoundCache(cache, retired) && k !in retired
    ensures SoundCache(cache, retired[k := m])
  {}

  lemma LoadKeepsCache(s: World, caller: nat, h: Hash, thread: nat)
    requires CacheOk(s) && Enabled(s, Load(caller, h, thread))
    ensures CacheOk(Loaded(s, caller, h, thread))
  {
    FindFacts(s.loader.cache, h);
    if Find(s.loader.cache, h).Some? {
      PutFacts(s.loader.cache, s.loader.cacheCap, Find(s.loader.cache, h).value, s.retired);
    }
    hide Find, Put;
  }

  lemma FinishKeepsCache(s: World, thread: nat, ok: bool)
    requires CacheOk(s) && SerialsOk(s) && Enabled(s, Finish(thread, ok))
    ensures CacheOk(ThreadFinished(s, thread, ok))
  {
    var h := s.threads[thread].value;
    if h in s.loader.compiling {
      var e := s.loader.compiling[h];
      var m := if ok then Compiled(h, e.serial) else Failed(h, e.serial);
      SoundCacheGrows(s.loader.cache, s.retired, e.serial, m);
      if ok {
        PutFacts(s.loader.cache, s.loader.cacheCap, m, s.retired[e.serial := m]);
      }
    }
    hide Put, SerialsOk;
  }

  // Runs

  lemma StepKeepsInv(s: World, step: Step)
    requires Inv(s) && Enabled(s, step)
    ensures Inv(Apply(s, step))
  {
    match step {
      case Load(caller, h, thread) =>
        LoadKeepsBounds(s, caller, h, thread);
        LoadKeepsPartition(s, caller, h, thread);
        LoadKeepsSerials(s, caller, h, thread);
        LoadKeepsWaiting(s, caller, h, thread);
        LoadKeepsSubscribers(s, caller, h, thread);
        LoadKeepsAnswers(s, caller, h, thread);
        LoadKeepsCache(s, caller, h, thread);
        hide PartitionOk, BoundsOk, SerialsOk, WaitingOk, SubscribersOk, AnswersOk, CacheOk;
      case Cancel(caller) =>
        CancelKeepsWork(s, caller);
        CancelKeepsAnswers(s, caller);
        hide PartitionOk, BoundsOk, SerialsOk, WaitingOk, SubscribersOk, AnswersOk, CacheOk;
      case Pop(thread) =>
        PopKeepsBounds(s, thread);
        PopKeepsPartition(s, thread);
        PopKeepsRest(s, thread);
        hide PartitionOk, BoundsOk, SerialsOk, WaitingOk, SubscribersOk, AnswersOk, CacheOk;
      case Finish(thread, ok) =>
        FinishKeepsBounds(s, thread, ok);
        FinishKeepsPartition(s, thread, ok);
        FinishKeepsSerials(s, thread, ok);
        FinishKeepsWaiting(s, thread, ok);
        FinishKeepsAnswers(s, thread, ok);
        FinishKeepsCache(s, thread, ok);
        hide PartitionOk, BoundsOk, SerialsOk, WaitingOk, SubscribersOk, AnswersOk, CacheOk;
    }
  }

  lemma CancelKeepsWork(s: World, caller: nat)
    requires PartitionOk(s) && BoundsOk(s) && CacheOk(s) && caller in s.waiting
    ensures var s' := Apply(s, Cancel(caller)); PartitionOk(s') && BoundsOk(s') && CacheOk(s')
  {
    hide Splits, Held, OneHolder;
  }

  lemma CancelKeepsAnswers(s: World, caller: nat)
    requires SerialsOk(s) && WaitingOk(s) && SubscribersOk(s) && AnswersOk(s) && caller in s.waiting
    ensures var s' := Apply(s, Cancel(caller)); SerialsOk(s') && WaitingOk(s') && SubscribersOk(s') && AnswersOk(s')
  {}

  lemma PopKeepsRest(s: World, thread: nat)
    requires SerialsOk(s) && WaitingOk(s) && SubscribersOk(s) && AnswersOk(s) && CacheOk(s)
    requires Enabled(s, Pop(thread))
    ensures var s' := ThreadPopped(s, thread);
            SerialsOk(s') && WaitingOk(s') && SubscribersOk(s') && AnswersOk(s') && CacheOk(s')
  {}

  lemma {:induction false} RunKeepsInv(s: World, steps: seq<Step>)
    requires Inv(s) && IsRun(s, steps)
    ensures Inv(Exec(s, steps))
    decreases |steps|
  {
    hide Inv;
    if steps != [] {
      StepKeepsInv(s, steps[0]);
      RunKeepsInv(Apply(s, steps[0]), steps[1..]);
    }
  }

  lemma InitInv(cacheCap: nat, maxTasks: nat, queueCap: nat)
    requires maxTasks >= 1
    ensures Inv(Init(cacheCap, maxTasks, queueCap))
  {}

  lemma ReachableInv(s: World, cacheCap: nat, maxTasks: nat, queueCap: nat)
    requires maxTasks >= 1 && Reachable(s, cacheCap, maxTasks, queueCap)
    ensures Inv(s)
  {
    var init := Init(cacheCap, maxTasks, queueCap);
    var steps :| IsRun(init, steps) && Exec(init, steps) == s;
    InitInv(cacheCap, maxTasks, queueCap);
    hide Inv;
    RunKeepsInv(init, steps);
  }

  /**
   * In every run the hashes in progress are those queued and those held, each by one thread; threads
   * and queue stay within their limits; queued work always has a thread; and a thread that finishes
   * always finds its entry.
   */
  lemma WorkIsPartitioned(s: World, cacheCap: nat, maxTasks: nat, queueCap: nat)
    requires maxTasks >= 1 && Reachable(s, cacheCap, maxTasks, queueCap)
    ensures PartitionOk(s) && BoundsOk(s)
    ensures forall t, ok :: Enabled(s, Finish(t, ok)) ==> Finished(s.loader, s.threads[t].value, ok).1.Some?
  {
    ReachableInv(s, cacheCap, maxTasks, queueCap);
    hide SerialsOk, WaitingOk, SubscribersOk, AnswersOk, CacheOk, Put;
    forall t, ok | Enabled(s, Finish(t, ok))
      ensures Finished(s.loader, s.threads[t].value, ok).1.Some?
    {
      FinishFindsEntry(s, t);
    }
  }

  /** The outcome that retired the entry a caller joined has reached that caller. */
  ghost predicate HasItsOutcome(s: World, c: nat) {
    && c in s.joined && c in s.delivered && s.joined[c].serial in s.retired
    && s.delivered[c] == s.retired[s.joined[c].serial]
    && s.delivered[c].hash == s.joined[c].hash && s.delivered[c].entry == s.joined[c].serial
  }

  /** A caller that joined is still waiting or has an answer. */
  ghost predicate NotForgotten(s: World, c: nat) {
    c in s.joined ==> c in s.waiting || c in s.delivered
  }

  lemma StepForgetsNobody(s: World, step: Step, c: nat)
    requires Enabled(s, step) && step != Cancel(c) && NotForgotten(s, c)
    ensures NotForgotten(Apply(s, step), c)
  {
    hide Find, Put, MinOf;
    match step {
      case Load(_, _, _) => case Cancel(_) => case Pop(_) => case Finish(_, _) =>
    }
  }

  ghost predicate NeverCancels(steps: seq<Step>, c: nat) {
    forall k :: 0 <= k < |steps| ==> steps[k] != Cancel(c)
  }

  lemma {:induction false} RunForgetsNobody(s: World, steps: seq<Step>, c: nat)
    requires IsRun(s, steps) && NeverCancels(steps, c) && NotForgotten(s, c)
    ensures NotForgotten(Exec(s, steps), c)
    decreases |steps|
  {
    if steps != [] {
      assert steps[0] != Cancel(c);
      StepForgetsNobody(s, steps[0], c);
      hide Apply, Enabled, NotForgotten;
      RunForgetsNobody(Apply(s, steps[0]), steps[1..], c);
    }
  }

  /**
   * In every run, a caller that joined and did not cancel is still waiting or has got the outcome that
   * retired its own request, for its own hash.
   */
  lemma CallersGetTheirOutcome(cacheCap: nat, maxTasks: nat, queueCap: nat, steps: seq<Step>, c: nat)
    requires maxTasks >= 1 && IsRun(Init(cacheCap, maxTasks, queueCap), steps) && NeverCancels(steps, c)
    ensures var s := Exec(Init(cacheCap, maxTasks, queueCap), steps);
            && (c in s.joined ==> c in s.waiting || HasItsOutcome(s, c))
            && (c in s.joined && c in s.delivered ==> HasItsOutcome(s, c))
  {
    var init := Init(cacheCap, maxTasks, queueCap);
    var s := Exec(init, steps);
    RunForgetsNobody(init, steps, c);
    assert Reachable(s, cacheCap, maxTasks, queueCap);
    ReachableInv(s, cacheCap, maxTasks, queueCap);
    hide Exec, IsRun, PartitionOk, BoundsOk, CacheOk, WaitingOk, SubscribersOk;
  }

  /** In every run a cache hit is a successful compilation of the requested hash. */
  lemma HitsAreCompilations(s: World, cacheCap: nat, maxTasks: nat, queueCap: nat, caller: nat, h: Hash)
    requires maxTasks >= 1 && Reachable(s, cacheCap, maxTasks, queueCap)
    requires Requested(s.loader, caller, h).1.Hit?
    ensures var m := Requested(s.loader, caller, h).1.module_;
            m.Compiled? && m.hash == h && m.entry in s.retired && s.retired[m.entry] == m
  {
    ReachableInv(s, cacheCap, maxTasks, queueCap);
    FindFacts(s.loader.cache, h);
  }

  /** A request is refused with nothing changed, answered at once for its hash, or on record as waiting for it. */
  lemma RequestsAreTaken(s: World, cacheCap: nat, maxTasks: nat, queueCap: nat, caller: nat, h: Hash, thread: nat)
    requires maxTasks >= 1 && Reachable(s, cacheCap, maxTasks, queueCap) && Enabled(s, Load(caller, h, thread))
    ensures var s' := Loaded(s, caller, h, thread);
            || (Requested(s.loader, caller, h).1.QueueFull? && s' == s)
            || (caller in s'.delivered && s'.delivered[caller].Compiled? && s'.delivered[caller].hash == h)
            || (caller in s'.joined && s'.joined[caller].hash == h && caller in s'.waiting)
  {
    if Requested(s.loader, caller, h).1.Hit? {
      HitsAreCompilations(s, cacheCap, maxTasks, queueCap, caller, h);
    }
    hide Find, Put, Reachable;
  }

  /**
   * A request is refused exactly when its hash is neither cached nor in progress and the queue is full; a
   * hash in progress is joined; otherwise it is queued, with a new thread as long as one may be added.
   */
  lemma RequestOutcome(l: Loader, caller: nat, h: Hash)
    ensures var (l', reply) := Requested(l, caller, h);
            var cached := exists m :: m in l.cache && m.hash == h;
            && (reply.Hit? <==> cached)
            && (reply.Joined? <==> !cached && h in l.compiling)
            && (reply.QueueFull? <==> !cached && h !in l.compiling && |l.queue| >= l.queueCap)
            && (reply.Queued? ==> h in l'.queue && h in l'.compiling && (reply.spawn <==> l.compilingTasks < l.maxTasks))
            && (reply.Queued? || reply.Joined? ==> caller in l'.compiling[h].subscribers && l'.compiling[h].serial == reply.serial)
  {
    FindFacts(l.cache, h);
    if m :| m in l.cache && m.hash == h {
      var k :| 0 <= k < |l.cache| && l.cache[k] == m;
    }
    hide Find, Put;
  }

  /** A thread takes the least queued hash, and leaves only when none is queued. */
  lemma PopOutcome(l: Loader)
    requires l.queue != {} || l.compilingTasks > 0
    ensures var (l', h) := Popped(l);
            && (h.None? <==> l.queue == {})
            && (h.None? ==> l'.compilingTasks == l.compilingTasks - 1)
            && (h.Some? ==> h.value in l.queue && l'.queue == l.queue - {h.value} && forall g :: g in l.queue ==> h.value <= g)
  {}

  /**
   * In every run, the end of a compilation tells every caller that waits for its hash, and nobody else,
   * and tells success exactly if the compiler did.
   */
  lemma FinishOutcome(s: World, cacheCap: nat, maxTasks: nat, queueCap: nat, thread: nat, ok: bool, c: nat)
    requires maxTasks >= 1 && Reachable(s, cacheCap, maxTasks, queueCap) && Enabled(s, Finish(thread, ok))
    requires c in s.waiting
    ensures var s', h := Apply(s, Finish(thread, ok)), s.threads[thread].value;
            && c in s.joined
            && (c in s'.waiting <==> s.joined[c].hash != h)
            && (c in s'.delivered <==> s.joined[c].hash == h)
            && (c in s'.delivered ==> s'.delivered[c] == if ok then Compiled(h, s.joined[c].serial) else Failed(h, s.joined[c].serial))
            && h !in s'.loader.compiling
  {
    ReachableInv(s, cacheCap, maxTasks, queueCap);
    FinishFindsEntry(s, thread);
    hide PartitionOk, BoundsOk, SerialsOk, AnswersOk, CacheOk, Put, Reachable;
  }

  // Draining

  ghost predicate IsThreadStep(step: Step) {
    step.Pop? || step.Finish?
  }

  ghost predicate ThreadSteps(steps: seq<Step>) {
    forall k :: 0 <= k < |steps| ==> IsThreadStep(steps[k])
  }

  ghost function Busy(threads: map<nat, Option<Hash>>): set<nat> {
    set t | t in threads && threads[t].Some?
  }

  ghost function Measure(s: World): nat {
    2 * |s.loader.queue| + |Busy(s.threads)| + |s.threads|
  }

  lemma ThreadStepDecreases(s: World, step: Step)
    requires Enabled(s, step) && IsThreadStep(step)
    ensures Measure(Apply(s, step)) < Measure(s)
  {
    hide Put;
    match step {
      case Pop(t) =>
        if s.loader.queue == {} {
          assert Busy(s.threads - {t}) == Busy(s.threads);
          assert (s.threads - {t}).Keys == s.threads.Keys - {t};
          assert |s.threads - {t}| == |s.threads| - 1;
        } else {
          var h := MinOf(s.loader.queue);
          assert Busy(s.threads[t := Some(h)]) == Busy(s.threads) + {t};
          assert s.threads[t := Some(h)].Keys == s.threads.Keys;
          assert |s.threads[t := Some(h)]| == |s.threads|;
        }
      case Finish(t, ok) =>
        assert Busy(s.threads[t := None]) == Busy(s.threads) - {t};
        assert s.threads[t := None].Keys == s.threads.Keys;
        assert |s.threads[t := None]| == |s.threads|;
    }
  }

  /** Without new requests the threads take boundedly many steps. */
  lemma {:induction false} ThreadRunIsBounded(s: World, steps: seq<Step>)
    requires IsRun(s, steps) && ThreadSteps(steps)
    ensures |steps| + Measure(Exec(s, steps)) <= Measure(s)
    decreases |steps|
  {
    hide Measure, Apply, Enabled;
    if steps != [] {
      assert IsThreadStep(steps[0]);
      ThreadStepDecreases(s, steps[0]);
      ThreadRunIsBounded(Apply(s, steps[0]), steps[1..]);
    }
  }

  /** Some thread can always move until nothing is in progress and no caller is left waiting. */
  lemma NoDeadlock(s: World, cacheCap: nat, maxTasks: nat, queueCap: nat)
    requires maxTasks >= 1 && Reachable(s, cacheCap, maxTasks, queueCap)
    ensures (exists step :: IsThreadStep(step) && Enabled(s, step))
            || (s.threads == map[] && s.loader.queue == {} && s.loader.compiling == map[] && s.waiting == {})
  {
    ReachableInv(s, cacheCap, maxTasks, queueCap);
    if t :| t in s.threads {
      assert |s.threads| > 0;
      var step := if s.threads[t].None? then Pop(t) else Finish(t, true);
      assert IsThreadStep(step) && Enabled(s, step);
    } else {
      assert s.threads == map[];
      assert Held(s.threads) == {};
      assert s.loader.compiling.Keys == {};
    }
  }

  ghost predicate Quiet(s: World) {
    forall step :: IsThreadStep(step) ==> !Enabled(s, step)
  }

  lemma {:induction false} RunsAppend(s: World, first: seq<Step>, second: seq<Step>)
    requires IsRun(s, first) && IsRun(Exec(s, first), second)
    ensures IsRun(s, first + second) && Exec(s, first + second) == Exec(Exec(s, first), second)
    decreases |first|
  {
    hide Apply, Enabled;
    if first == [] {
      assert first + second == second;
    } else {
      RunsAppend(Apply(s, first[0]), first[1..], second);
      assert (first + second)[0] == first[0] && (first + second)[1..] == first[1..] + second;
    }
  }

  /**
   * Once no thread can move, every caller that joined and did not cancel holds the outcome that retired
   * its entry.
   */
  lemma QuietMeansAnswered(cacheCap: nat, maxTasks: nat, queueCap: nat, steps: seq<Step>, c: nat)
    requires maxTasks >= 1 && IsRun(Init(cacheCap, maxTasks, queueCap), steps) && NeverCancels(steps, c)
    requires var s := Exec(Init(cacheCap, maxTasks, queueCap), steps); c in s.joined && Quiet(s)
    ensures HasItsOutcome(Exec(Init(cacheCap, maxTasks, queueCap), steps), c)
  {
    var s := Exec(Init(cacheCap, maxTasks, queueCap), steps);
    assert Reachable(s, cacheCap, maxTasks, queueCap);
    NoDeadlock(s, cacheCap, maxTasks, queueCap);
    CallersGetTheirOutcome(cacheCap, maxTasks, queueCap, steps, c);
    hide Exec, IsRun, Reachable, HasItsOutcome, Enabled;
  }

  /** The threads can always run on until no thread can move. */
  lemma {:induction false} ThreadsRunOut(s: World) returns (steps: seq<Step>)
    ensures IsRun(s, steps) && ThreadSteps(steps) && Quiet(Exec(s, steps))
    decreases Measure(s)
  {
    if Quiet(s) {
      steps := [];
    } else {
      var step :| IsThreadStep(step) && Enabled(s, step);
      ThreadStepDecreases(s, step);
      hide Measure, Quiet, Apply, Enabled;
      var rest := ThreadsRunOut(Apply(s, step));
      steps := [step] + rest;
      assert steps[1..] == rest;
    }
  }

  /**
   * From any point of any run the threads alone can finish in a bounded number of steps, and however they
   * do, every caller that joined and did not cancel is answered with the outcome of its own request.
   */
  lemma EveryCallerIsAnswered(cacheCap: nat, maxTasks: nat, queueCap: nat, before: seq<Step>, c: nat)
    requires maxTasks >= 1 && IsRun(Init(cacheCap, maxTasks, queueCap), before) && NeverCancels(before, c)
    requires c in Exec(Init(cacheCap, maxTasks, queueCap), before).joined
    ensures var s := Exec(Init(cacheCap, maxTasks, queueCap), before);
            && (exists steps :: IsRun(s, steps) && ThreadSteps(steps) && Quiet(Exec(s, steps)))
            && (forall steps :: IsRun(s, steps) && ThreadSteps(steps) ==> |steps| <= Measure(s))
            && (forall steps :: IsRun(s, steps) && ThreadSteps(steps) && Quiet(Exec(s, steps)) ==> HasItsOutcome(Exec(s, steps), c))
  {
    var init := Init(cacheCap, maxTasks, queueCap);
    var s := Exec(init, before);
    var some := ThreadsRunOut(s);
    forall steps | IsRun(s, steps) && ThreadSteps(steps)
      ensures |steps| <= Measure(s)
      ensures Quiet(Exec(s, steps)) ==> HasItsOutcome(Exec(s, steps), c)
    {
      ThreadRunIsBounded(s, steps);
      if Quiet(Exec(s, steps)) {
        RunsAppend(init, before, steps);
        ThreadsKeepJoined(s, steps, c);
        NeverCancelsAppend(before, steps, c);
        QuietMeansAnswered(cacheCap, maxTasks, queueCap, before + steps, c);
      }
    }
    hide Exec, IsRun, ThreadSteps, Quiet, HasItsOutcome, Measure;
  }

  lemma NeverCancelsAppend(before: seq<Step>, steps: seq<Step>, c: nat)
    requires NeverCancels(before, c) && ThreadSteps(steps)
    ensures NeverCancels(before + steps, c)
  {
    forall k | 0 <= k < |before + steps|
      ensures (before + steps)[k] != Cancel(c)
    {
      assert k >= |before| ==> IsThreadStep(steps[k - |before|]);
    }
  }

  lemma {:induction false} ThreadsKeepJoined(s: World, steps: seq<Step>, c: nat)
    requires IsRun(s, steps) && ThreadSteps(steps) && c in s.joined
    ensures c in Exec(s, steps).joined
    decreases |steps|
  {
    if steps != [] {
      assert IsThreadStep(steps[0]);
      assert c in Apply(s, steps[0]).joined;
      hide Apply, Enabled;
      ThreadsKeepJoined(Apply(s, steps[0]), steps[1..], c);
    }
  }
}
