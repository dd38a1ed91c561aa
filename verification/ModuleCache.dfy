/**
 * What the module cache remembers: a compiled module answers requests for its hash until as many other
 * hashes as the cache holds have been used since.
 */
module ModuleCache {
  import opened Common
  import opened ModuleLoaders
  import opened ModuleLoaderRuns

  // Positions in the cache

  /** The hashes used more recently than `h`; all of them if `h` is not there. */
  ghost function AheadOf(cache: seq<Outcome>, h: Hash): set<Hash> {
    if cache == [] || cache[0].hash == h then {} else {cache[0].hash} + AheadOf(cache[1..], h)
  }

  ghost function Position(cache: seq<Outcome>, h: Hash): nat {
    if cache == [] || cache[0].hash == h then 0 else 1 + Position(cache[1..], h)
  }

  lemma {:induction false} AheadIsEarlier(cache: seq<Outcome>, h: Hash, g: Hash)
    requires g in AheadOf(cache, h)
    ensures g != h && exists k :: 0 <= k < |cache| && cache[k].hash == g
  {
    if g != cache[0].hash {
      AheadIsEarlier(cache[1..], h, g);
      var k :| 0 <= k < |cache[1..]| && cache[1..][k].hash == g;
      assert cache[k + 1].hash == g;
    }
  }

  lemma {:induction false} PositionCounts(cache: seq<Outcome>, h: Hash)
    requires DistinctHashes(cache)
    ensures Position(cache, h) == |AheadOf(cache, h)|
  {
    if cache != [] && cache[0].hash != h {
      PositionCounts(cache[1..], h);
      if cache[0].hash in AheadOf(cache[1..], h) {
        AheadIsEarlier(cache[1..], h, cache[0].hash);
        assert false;
      }
    }
  }

  lemma {:induction false} WithoutOther(cache: seq<Outcome>, g: Hash, h: Hash)
    requires g != h && DistinctHashes(cache)
    ensures Find(Without(cache, g), h) == Find(cache, h)
    ensures Find(cache, h).Some? ==> AheadOf(Without(cache, g), h) == AheadOf(cache, h) - {g}
    ensures Find(cache, h).None? ==> Find(Without(cache, g), h).None?
  {
    if cache != [] && cache[0].hash != h {
      WithoutOther(cache[1..], g, h);
    }
  }

  /** Cutting the cache keeps exactly what stands before the cut. */
  lemma {:induction false} CutKeeps(cache: seq<Outcome>, cap: nat, h: Hash)
    requires cap <= |cache| && Find(cache, h).Some?
    ensures Position(cache, h) < cap ==> Find(cache[..cap], h) == Find(cache, h) && AheadOf(cache[..cap], h) == AheadOf(cache, h)
    ensures Position(cache, h) >= cap ==> Find(cache[..cap], h).None?
  {
    if cap > 0 && cache[0].hash != h {
      CutKeeps(cache[1..], cap - 1, h);
      assert cache[..cap][1..] == cache[1..][..cap - 1];
    }
  }

  lemma {:induction false} CutAddsNothing(cache: seq<Outcome>, cap: nat, h: Hash)
    requires cap <= |cache| && Find(cache, h).None?
    ensures Find(cache[..cap], h).None?
  {
    if cap > 0 {
      CutAddsNothing(cache[1..], cap - 1, h);
      assert cache[..cap][1..] == cache[1..][..cap - 1];
    }
  }

  lemma {:induction false} WithoutIsDistinct(cache: seq<Outcome>, g: Hash)
    requires DistinctHashes(cache)
    ensures DistinctHashes(Without(cache, g))
    ensures forall m :: m in Without(cache, g) ==> m in cache && m.hash != g
  {
    if cache != [] {
      WithoutIsDistinct(cache[1..], g);
      forall m | m in cache[1..]
        ensures m.hash != cache[0].hash
      {}
    }
  }

  // One use of the cache

  /** Using `h` puts it in front. */
  lemma UseOfItself(cache: seq<Outcome>, cap: nat, m: Outcome)
    requires cap >= 1
    ensures Find(Put(cache, cap, m), m.hash) == Some(m) && AheadOf(Put(cache, cap, m), m.hash) == {}
  {}

  lemma FrontOfAll(cache: seq<Outcome>, m: Outcome, h: Hash)
    requires DistinctHashes(cache) && h != m.hash
    ensures var all := [m] + Without(cache, m.hash);
            && DistinctHashes(all) && Find(all, h) == Find(cache, h)
            && (Find(cache, h).Some? ==> AheadOf(all, h) == AheadOf(cache, h) + {m.hash})
  {
    WithoutOther(cache, m.hash, h);
    WithoutIsDistinct(cache, m.hash);
    var all := [m] + Without(cache, m.hash);
    assert all[1..] == Without(cache, m.hash);
    forall j, k | 0 <= j < k < |all|
      ensures all[j].hash != all[k].hash
    {
      assert all[k] in Without(cache, m.hash);
    }
    hide Without;
  }

  /** Using another hash moves `h` back by at most one, and out when `cap` others are ahead of it. */
  lemma UseOfAnother(cache: seq<Outcome>, cap: nat, m: Outcome, h: Hash)
    requires DistinctHashes(cache) && h != m.hash && cap >= 1 && |cache| <= cap
    ensures var ahead := AheadOf(cache, h) + {m.hash};
            && (Find(cache, h).Some? && |ahead| < cap ==>
                  Find(Put(cache, cap, m), h) == Find(cache, h) && AheadOf(Put(cache, cap, m), h) == ahead)
            && (Find(cache, h).Some? && |ahead| >= cap ==> Find(Put(cache, cap, m), h).None?)
            && (Find(cache, h).None? ==> Find(Put(cache, cap, m), h).None?)
  {
    FrontOfAll(cache, m, h);
    var all := [m] + Without(cache, m.hash);
    PositionCounts(all, h);
    if Find(cache, h).Some? {
      PositionInside(all, h);
      if |all| > cap {
        CutKeeps(all, cap, h);
      }
    } else if |all| > cap {
      CutAddsNothing(all, cap, h);
    }
    hide Without, Find, AheadOf, Position;
  }

  lemma {:induction false} PositionInside(cache: seq<Outcome>, h: Hash)
    requires Find(cache, h).Some?
    ensures Position(cache, h) < |cache|
  {
    if cache[0].hash != h {
      PositionInside(cache[1..], h);
    }
  }

  // Runs

  /** The hash whose cached module a step returns or stores. */
  ghost function UsedBy(s: World, step: Step): Option<Hash>
    requires Enabled(s, step)
  {
    match step
    case Load(caller, h, _) => if Requested(s.loader, caller, h).1.Hit? then Some(h) else None
    case Finish(t, ok) => if ok then s.threads[t] else None
    case _ => None
  }

  ghost function UsedSet(s: World, step: Step): set<Hash>
    requires Enabled(s, step)
  {
    var used := UsedBy(s, step);
    if used.Some? then {used.value} else {}
  }

  ghost function UsedIn(s: World, steps: seq<Step>): set<Hash>
    requires IsRun(s, steps)
    decreases |steps|
  {
    if steps == [] then {} else UsedSet(s, steps[0]) + UsedIn(Apply(s, steps[0]), steps[1..])
  }

  lemma LoadOnCache(s: World, caller: nat, h: Hash, thread: nat)
    ensures var s', m := Loaded(s, caller, h, thread), Find(s.loader.cache, h);
            && s'.loader.cacheCap == s.loader.cacheCap
            && (m.Some? ==> m.value.hash == h && s'.loader.cache == Put(s.loader.cache, s.loader.cacheCap, m.value))
            && (m.None? ==> s'.loader.cache == s.loader.cache)
  {
    FindFacts(s.loader.cache, h);
    hide Find, Put;
  }

  lemma FinishOnCache(s: World, t: nat, ok: bool)
    requires PartitionOk(s) && Enabled(s, Finish(t, ok))
    ensures var s', h := ThreadFinished(s, t, ok), s.threads[t].value;
            && s'.loader.cacheCap == s.loader.cacheCap && h in s.loader.compiling
            && (ok ==> s'.loader.cache == Put(s.loader.cache, s.loader.cacheCap, Compiled(h, s.loader.compiling[h].serial)))
            && (!ok ==> s'.loader.cache == s.loader.cache)
  {
    FinishFindsEntry(s, t);
    hide Put, PartitionOk;
  }

  /** A step that uses a hash puts one module of that hash; any other step leaves the cache alone. */
  lemma StepOnCache(s: World, step: Step) returns (m: Outcome)
    requires PartitionOk(s) && Enabled(s, step)
    ensures var s', used := Apply(s, step), UsedBy(s, step);
            && s'.loader.cacheCap == s.loader.cacheCap
            && (used.None? ==> s'.loader.cache == s.loader.cache)
            && (used.Some? ==> m.hash == used.value && s'.loader.cache == Put(s.loader.cache, s.loader.cacheCap, m))
            && (step.Finish? && step.ok ==>
                  var h := s.threads[step.thread].value;
                  h in s.loader.compiling && m == Compiled(h, s.loader.compiling[h].serial))
            && (step.Load? && used.Some? ==> Requested(s.loader, step.caller, step.hash).1 == Hit(m))
  {
    hide Put, Find, MinOf, PartitionOk;
    m := Compiled(0, 0);
    match step {
      case Load(caller, h, thread) =>
        LoadOnCache(s, caller, h, thread);
        if Find(s.loader.cache, h).Some? {
          m := Find(s.loader.cache, h).value;
        }
        hide Loaded;
      case Finish(t, ok) =>
        FinishOnCache(s, t, ok);
        if ok {
          m := Compiled(s.threads[t].value, s.loader.compiling[s.threads[t].value].serial);
        }
        hide ThreadFinished;
      case Cancel(_) =>
      case Pop(_) =>
    }
  }

  /** What the cache knows of `h` once the hashes in `used` were used after it. */
  ghost predicate Tracks(l: Loader, h: Hash, m: Outcome, used: set<Hash>) {
    if |used| < l.cacheCap then Find(l.cache, h) == Some(m) && AheadOf(l.cache, h) == used else Find(l.cache, h).None?
  }

  lemma StepTracks(s: World, step: Step, h: Hash, m: Outcome, used: set<Hash>)
    requires Inv(s) && s.loader.cacheCap >= 1 && Enabled(s, step) && h !in UsedSet(s, step)
    requires Tracks(s.loader, h, m, used)
    ensures Tracks(Apply(s, step).loader, h, m, used + UsedSet(s, step))
    ensures Apply(s, step).loader.cacheCap == s.loader.cacheCap
  {
    var put := StepOnCache(s, step);
    var g, s' := UsedBy(s, step), Apply(s, step);
    hide Apply, UsedBy, Put, Find, AheadOf;
    if g.Some? {
      UseOfAnother(s.loader.cache, s.loader.cacheCap, put, h);
      SubsetCardinality(used, used + {g.value});
    } else {
      assert used + {} == used;
    }
  }

  lemma {:induction false} RunTracks(s: World, steps: seq<Step>, h: Hash, m: Outcome, used: set<Hash>)
    requires Inv(s) && s.loader.cacheCap >= 1 && IsRun(s, steps) && h !in UsedIn(s, steps)
    requires Tracks(s.loader, h, m, used)
    ensures Tracks(Exec(s, steps).loader, h, m, used + UsedIn(s, steps))
    ensures Exec(s, steps).loader.cacheCap == s.loader.cacheCap
    decreases |steps|
  {
    hide Apply, Enabled, UsedSet, Inv, Tracks;
    if steps == [] {
      assert used + {} == used;
    } else {
      var more := UsedSet(s, steps[0]);
      StepTracks(s, steps[0], h, m, used);
      StepKeepsInv(s, steps[0]);
      var s' := Apply(s, steps[0]);
      RunTracks(s', steps[1..], h, m, used + more);
      assert used + (more + UsedIn(s', steps[1..])) == used + more + UsedIn(s', steps[1..]);
    }
  }

  /** The outcome that a use of the cache returned or stored. */
  ghost predicate UsedOutcome(s: World, use: Step, m: Outcome)
    requires Enabled(s, use)
  {
    match use
    case Load(caller, _, _) => caller in Apply(s, use).delivered && Apply(s, use).delivered[caller] == m
    case Finish(t, _) =>
      var h := s.threads[t].value;
      h in s.loader.compiling && m == Compiled(h, s.loader.compiling[h].serial)
      && m.entry in Apply(s, use).retired && Apply(s, use).retired[m.entry] == m
    case _ => false
  }

  lemma UsePutsInFront(s: World, use: Step, h: Hash) returns (m: Outcome)
    requires Inv(s) && s.loader.cacheCap >= 1 && Enabled(s, use) && UsedBy(s, use) == Some(h)
    ensures UsedOutcome(s, use, m) && Tracks(Apply(s, use).loader, h, m, {})
    ensures Apply(s, use).loader.cacheCap == s.loader.cacheCap
  {
    m := StepOnCache(s, use);
    UseOfItself(s.loader.cache, s.loader.cacheCap, m);
    hide Put, Find, AheadOf, Inv;
  }

  lemma {:induction false} RunKeepsCap(s: World, steps: seq<Step>)
    requires Inv(s) && IsRun(s, steps)
    ensures Exec(s, steps).loader.cacheCap == s.loader.cacheCap
    decreases |steps|
  {
    if steps != [] {
      var m := StepOnCache(s, steps[0]);
      StepKeepsInv(s, steps[0]);
      hide Apply, Enabled, Inv;
      RunKeepsCap(Apply(s, steps[0]), steps[1..]);
    }
  }

  lemma ReplyTells(l: Loader, h: Hash, m: Outcome, used: set<Hash>, caller: nat)
    requires Tracks(l, h, m, used)
    ensures var reply := Requested(l, caller, h).1;
            && (reply.Hit? <==> |used| < l.cacheCap)
            && (reply.Hit? ==> reply.module_ == m)
  {
    hide Find, Put, AheadOf;
  }

  lemma ReachableCap(s: World, cacheCap: nat, maxTasks: nat, queueCap: nat)
    requires maxTasks >= 1 && Reachable(s, cacheCap, maxTasks, queueCap)
    ensures Inv(s) && s.loader.cacheCap == cacheCap
  {
    hide Inv;
    var init := Init(cacheCap, maxTasks, queueCap);
    var steps :| IsRun(init, steps) && Exec(init, steps) == s;
    ReachableInv(s, cacheCap, maxTasks, queueCap);
    InitInv(cacheCap, maxTasks, queueCap);
    RunKeepsCap(init, steps);
  }

  /**
   * After a use of `h` (a compilation that succeeded or a hit), and whatever happens then short of another
   * use of it, a request for `h` is a hit if and only if fewer other hashes than the cache holds were used
   * since; and the hit is the outcome of that use.
   */
  lemma HitIffRecentlyUsed(s: World, cacheCap: nat, maxTasks: nat, queueCap: nat, use: Step, h: Hash, s1: World, steps: seq<Step>, caller: nat)
    requires cacheCap >= 1 && maxTasks >= 1 && Reachable(s, cacheCap, maxTasks, queueCap)
    requires Enabled(s, use) && UsedBy(s, use) == Some(h) && s1 == Apply(s, use)
    requires IsRun(s1, steps) && h !in UsedIn(s1, steps)
    ensures var reply := Requested(Exec(s1, steps).loader, caller, h).1;
            && (reply.Hit? <==> |UsedIn(s1, steps)| < cacheCap)
            && (reply.Hit? ==> UsedOutcome(s, use, reply.module_))
  {
    ReachableCap(s, cacheCap, maxTasks, queueCap);
    var m := UsePutsInFront(s, use, h);
    StepKeepsInv(s, use);
    hide Inv, Reachable, UsedOutcome, Apply, UsedBy, Enabled, Tracks, Requested;
    RunTracks(s1, steps, h, m, {});
    assert {} + UsedIn(s1, steps) == UsedIn(s1, steps);
    hide Exec, IsRun, UsedIn;
    ReplyTells(Exec(s1, steps).loader, h, m, UsedIn(s1, steps), caller);
  }
}
