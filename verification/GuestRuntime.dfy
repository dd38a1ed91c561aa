/**
 * The guest runtime as it updates its own tables, each method proved against the table functions.
 * An ocall that marks a task ready is a call on the host's task set.
 */
module GuestRuntimes {
  import opened Common
  import opened TaskSets
  import opened GuestTables

  class GuestRuntime {
    const host: TaskSet
    var wakers: seq<Option<Waker>>
    var cachedWakerIds: seq<nat>
    var tasks: seq<Option<nat>>
    var spawningTasks: seq<nat>

    ghost function Table(): WakerTable
      reads this
    {
      WakerTable(wakers, cachedWakerIds)
    }

    constructor (host: TaskSet)
      ensures this.host == host && Table() == WakerTable([], []) && tasks == [Some(0)] && spawningTasks == []
    {
      this.host := host;
      wakers, cachedWakerIds, tasks, spawningTasks := [], [], [Some(0)], [];
    }

    method MaybeCacheWakerId(id: nat)
      modifies this`cachedWakerIds
      ensures cachedWakerIds ==
              if |old(cachedWakerIds)| < MAX_CACHE_WAKER_IDS then old(cachedWakerIds) + [id] else old(cachedWakerIds)
    {
      if |cachedWakerIds| < MAX_CACHE_WAKER_IDS {
        cachedWakerIds := cachedWakerIds + [id];
      }
    }

    method GetFreeWakerId() returns (id: Option<nat>)
      modifies this`cachedWakerIds
      ensures var f := Refilled(old(Table()));
              if f.cache == [] then id == None && cachedWakerIds == []
              else id == Some(f.cache[0]) && cachedWakerIds == f.cache[1..]
    {
      if |cachedWakerIds| == 0 {
        var k := 0;
        while k < |wakers|
          invariant 0 <= k <= |wakers|
          invariant |cachedWakerIds| < MAX_CACHE_WAKER_IDS
          invariant FreeIds(wakers, 0, MAX_CACHE_WAKER_IDS)
                    == cachedWakerIds + FreeIds(wakers, k, MAX_CACHE_WAKER_IDS - |cachedWakerIds|)
        {
          if wakers[k].None? {
            cachedWakerIds := cachedWakerIds + [k];
            if |cachedWakerIds| >= MAX_CACHE_WAKER_IDS {
              break;
            }
          }
          k := k + 1;
        }
      }
      if |cachedWakerIds| == 0 {
        return None;
      }
      id := Some(cachedWakerIds[0]);
      cachedWakerIds := cachedWakerIds[1..];
    }

    /** `None` where the source panics. */
    method InternWaker(w: Waker) returns (id: Option<nat>)
      modifies this`wakers, this`cachedWakerIds
      ensures id.Some? <==> Interned(old(Table()), w).Some?
      ensures id.Some? ==> (Table(), id.value) == Interned(old(Table()), w).value
    {
      var free := GetFreeWakerId();
      if free.Some? {
        if free.value >= |wakers| {
          return None;
        }
        wakers := wakers[free.value := Some(w)];
        return free;
      }
      if |wakers| < MAX_N_WAKERS {
        wakers := wakers + [Some(w)];
        return Some(|wakers| - 1);
      }
      id := None;
    }

    method WakeWaker(id: nat)
      modifies host`awakeTasks
      ensures host.awakeTasks == HandledCode(Table(), old(host.awakeTasks), id).1
    {
      if id < |wakers| && wakers[id].Some? {
        host.PushTask(wakers[id].value.task);
      }
    }

    method DropWaker(id: nat)
      modifies this`wakers, this`cachedWakerIds
      ensures Table() == Dropped(old(Table()), id)
    {
      if id < |wakers| {
        wakers := wakers[id := None];
        MaybeCacheWakerId(id);
      }
    }

    /** The loop of `wapo_poll` over the drained messages. */
    method HandleWakers(codes: seq<int>)
      modifies this`wakers, this`cachedWakerIds, host`awakeTasks
      ensures (Table(), host.awakeTasks) == HandledCodes(old(Table()), old(host.awakeTasks), codes)
    {
      hide Dropped, Lookup, Pushed;
      var k := 0;
      while k < |codes|
        invariant 0 <= k <= |codes|
        invariant (Table(), host.awakeTasks) == HandledCodes(old(Table()), old(host.awakeTasks), codes[..k])
      {
        assert codes[..k + 1][..k] == codes[..k];
        if codes[k] >= 0 {
          WakeWaker(codes[k]);
        } else {
          DropWaker(-1 - codes[k]);
        }
        k := k + 1;
      }
      assert codes[..k] == codes;
    }

    /** `false` where the source panics. */
    method StartTask(future: nat) returns (ok: bool)
      modifies this`tasks, host`awakeTasks
      ensures ok <==> Started(old(tasks), future).Some?
      ensures ok ==> tasks == Started(old(tasks), future).value.0
      ensures ok ==> host.awakeTasks == Pushed(old(host.awakeTasks), Started(old(tasks), future).value.1)
    {
      var k := if |tasks| < 1 then |tasks| else 1;
      while k < |tasks|
        invariant Min(1, |tasks|) <= k <= |tasks|
        invariant FirstFreeTask(tasks, Min(1, |tasks|)) == FirstFreeTask(tasks, k)
      {
        if tasks[k].None? {
          tasks := tasks[k := Some(future)];
          host.PushTask(k);
          return true;
        }
        k := k + 1;
      }
      if |tasks| < MAX_N_TASKS {
        var id := |tasks|;
        tasks := tasks + [Some(future)];
        host.PushTask(id);
        return true;
      }
      ok := false;
    }

    method StartSpawnedTasks() returns (ok: bool)
      modifies this`tasks, this`spawningTasks, host`awakeTasks
      ensures ok <==> StartedAll(old(tasks), old(host.awakeTasks), old(spawningTasks)).Some?
      ensures ok ==> (tasks, host.awakeTasks) == StartedAll(old(tasks), old(host.awakeTasks), old(spawningTasks)).value
      ensures ok ==> spawningTasks == []
    {
      var futures, k := spawningTasks, 0;
      while k < |futures|
        invariant 0 <= k <= |futures|
        invariant StartedAll(old(tasks), old(host.awakeTasks), futures[..k]) == Some((tasks, host.awakeTasks))
      {
        assert futures[..k + 1][..k] == futures[..k];
        var started := StartTask(futures[k]);
        if !started {
          StartedAllNone(old(tasks), old(host.awakeTasks), futures, k + 1);
          return false;
        }
        k := k + 1;
      }
      assert futures[..k] == futures;
      spawningTasks := [];
      ok := true;
    }
  }

  /** A panic at one future is a panic of the whole loop. */
  lemma {:induction false} StartedAllNone(tasks: seq<Option<nat>>, ready: seq<int>, futures: seq<nat>, k: nat)
    requires k <= |futures|
    requires StartedAll(tasks, ready, futures[..k]).None?
    ensures StartedAll(tasks, ready, futures).None?
    decreases |futures| - k
  {
    if k == |futures| {
      assert futures[..k] == futures;
    } else {
      assert futures[..k + 1][..k] == futures[..k];
      StartedAllNone(tasks, ready, futures, k + 1);
    }
  }
}
