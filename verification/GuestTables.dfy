/**
 * The guest's two slot tables: wakers that the host may hold by index, with a bounded cache of
 * released indices, and task futures. Both reuse empty slots before they grow.
 */
module GuestTables {
  import opened Common
  import opened TaskSets

  const MAX_CACHE_WAKER_IDS := 1024
  const MAX_N_WAKERS := 0x3FFF_FFFF
  const MAX_N_TASKS := 0x3FFF_FFFF

  /** A waker handed to `intern_waker`: `gen` identifies this very waker, `task` is what waking it marks ready. */
  datatype Waker = Waker(gen: nat, task: int)

  datatype WakerTable = WakerTable(slots: seq<Option<Waker>>, cache: seq<nat>)

  /** Cached ids are pairwise distinct, few, and name empty slots. */
  ghost predicate TableOk(t: WakerTable) {
    && |t.cache| <= MAX_CACHE_WAKER_IDS
    && Distinct(t.cache)
    && (forall k :: 0 <= k < |t.cache| ==> t.cache[k] < |t.slots| && t.slots[t.cache[k]].None?)
  }

  ghost predicate AllLive(slots: seq<Option<Waker>>) {
    forall i :: 0 <= i < |slots| ==> slots[i].Some?
  }

  ghost function LiveIds(slots: seq<Option<Waker>>): set<nat> {
    set i: nat | i < |slots| && slots[i].Some?
  }

  /** The empty slots at or after `from`, ascending, at most `limit` of them. */
  ghost function FreeIds(slots: seq<Option<Waker>>, from: nat, limit: nat): seq<nat>
    requires from <= |slots|
    decreases |slots| - from
  {
    if from == |slots| || limit == 0 then []
    else if slots[from].None? then [from] + FreeIds(slots, from + 1, limit - 1)
    else FreeIds(slots, from + 1, limit)
  }

  lemma {:induction false} FreeIdsFacts(slots: seq<Option<Waker>>, from: nat, limit: nat)
    requires from <= |slots|
    ensures var ids := FreeIds(slots, from, limit);
            && |ids| <= limit
            && Distinct(ids)
            && (forall k :: 0 <= k < |ids| ==> from <= ids[k] < |slots| && slots[ids[k]].None?)
            && (ids == [] && limit > 0 ==> forall i :: from <= i < |slots| ==> slots[i].Some?)
    decreases |slots| - from
  {
    if from < |slots| && limit > 0 {
      FreeIdsFacts(slots, from + 1, if slots[from].None? then limit - 1 else limit);
    }
  }

  /** `get_free_waker_id` before its pop: an empty cache is refilled by a scan. */
  ghost function Refilled(t: WakerTable): WakerTable {
    if t.cache == [] then t.(cache := FreeIds(t.slots, 0, MAX_CACHE_WAKER_IDS)) else t
  }

  lemma RefilledFacts(t: WakerTable)
    requires TableOk(t)
    ensures TableOk(Refilled(t)) && Refilled(t).slots == t.slots
    ensures Refilled(t).cache == [] <==> AllLive(t.slots)
  {
    FreeIdsFacts(t.slots, 0, MAX_CACHE_WAKER_IDS);
    if Refilled(t).cache != [] {
      assert t.slots[Refilled(t).cache[0]].None?;
    }
  }

  /** `None` stands for a panic: an index out of bounds, or "Too many wakers". */
  ghost function Interned(t: WakerTable, w: Waker): Option<(WakerTable, nat)> {
    var f := Refilled(t);
    if f.cache != [] then
      if f.cache[0] < |f.slots| then
        Some((WakerTable(f.slots[f.cache[0] := Some(w)], f.cache[1..]), f.cache[0]))
      else None
    else if |f.slots| < MAX_N_WAKERS then
      Some((f.(slots := f.slots + [Some(w)]), |f.slots|))
    else
      None
  }

  /** A waker takes an empty slot; the table grows only when every slot is live. */
  lemma InternTakesFreeSlot(t: WakerTable, w: Waker)
    requires TableOk(t)
    ensures Interned(t, w).None? <==> AllLive(t.slots) && |t.slots| >= MAX_N_WAKERS
    ensures Interned(t, w).Some? ==>
              var (t', id) := Interned(t, w).value;
              && TableOk(t')
              && id !in LiveIds(t.slots)
              && LiveIds(t'.slots) == LiveIds(t.slots) + {id}
              && t'.slots[id] == Some(w)
              && (forall i :: 0 <= i < |t.slots| && i != id ==> t'.slots[i] == t.slots[i])
              && if AllLive(t.slots) then id == |t.slots| && |t'.slots| == |t.slots| + 1
                 else id < |t.slots| && |t'.slots| == |t.slots|
  {
    RefilledFacts(t);
  }

  ghost function Dropped(t: WakerTable, id: nat): WakerTable {
    if id < |t.slots| then
      WakerTable(t.slots[id := None],
                 if |t.cache| < MAX_CACHE_WAKER_IDS then t.cache + [id] else t.cache)
    else t
  }

  /** Dropping keeps the cache sound exactly when the id is not already cached or the cache is full. */
  lemma DropKeepsTableIff(t: WakerTable, id: nat)
    requires TableOk(t)
    ensures TableOk(Dropped(t, id)) <==> id !in t.cache || |t.cache| >= MAX_CACHE_WAKER_IDS
    ensures LiveIds(Dropped(t, id).slots) == LiveIds(t.slots) - {id}
    ensures id in LiveIds(t.slots) ==> TableOk(Dropped(t, id))
  {
    var d := Dropped(t, id);
    if id in t.cache && |t.cache| < MAX_CACHE_WAKER_IDS {
      var k :| 0 <= k < |t.cache| && t.cache[k] == id;
      assert d.cache[k] == d.cache[|t.cache|];
    }
  }

  /** `wake_waker` looks the slot up and is silent when it is empty or out of range. */
  ghost function Lookup(t: WakerTable, id: nat): Option<Waker> {
    if id < |t.slots| then t.slots[id] else None
  }

  /** One drained message: an id to wake, which marks the waker's task ready, or `-1 - id` to drop. */
  ghost function HandledCode(t: WakerTable, ready: seq<int>, code: int): (WakerTable, seq<int>) {
    if code >= 0 then
      match Lookup(t, code)
      case Some(w) => (t, Pushed(ready, w.task))
      case None => (t, ready)
    else
      (Dropped(t, -1 - code), ready)
  }

  ghost function HandledCodes(t: WakerTable, ready: seq<int>, codes: seq<int>): (WakerTable, seq<int>) {
    if codes == [] then (t, ready)
    else
      var (t', ready') := HandledCodes(t, ready, codes[..|codes| - 1]);
      HandledCode(t', ready', codes[|codes| - 1])
  }

  // Futures are identified by the serial number they were spawned with.

  ghost predicate TaskLive(tasks: seq<Option<nat>>, id: int) {
    0 <= id < |tasks| && tasks[id].Some?
  }

  ghost function FirstFreeTask(tasks: seq<Option<nat>>, from: nat): (id: nat)
    requires from <= |tasks|
    ensures from <= id <= |tasks|
    ensures forall i :: from <= i < id ==> tasks[i].Some?
    ensures id < |tasks| ==> tasks[id].None?
    decreases |tasks| - from
  {
    if from == |tasks| || tasks[from].None? then from else FirstFreeTask(tasks, from + 1)
  }

  /** `None` stands for the panic "Max number of tasks reached". */
  ghost function Started(tasks: seq<Option<nat>>, future: nat): Option<(seq<Option<nat>>, nat)> {
    var id := FirstFreeTask(tasks, Min(1, |tasks|));
    if id < |tasks| then Some((tasks[id := Some(future)], id))
    else if |tasks| < MAX_N_TASKS then Some((tasks + [Some(future)], id))
    else None
  }

  /** A started future never displaces a live task and never takes slot 0. */
  lemma StartTakesFreeSlot(tasks: seq<Option<nat>>, future: nat)
    requires tasks != []
    ensures Started(tasks, future).Some? ==>
              var (tasks', id) := Started(tasks, future).value;
              && id != 0
              && !TaskLive(tasks, id)
              && |tasks| <= |tasks'| && id < |tasks'|
              && tasks'[id] == Some(future)
              && (forall i :: 0 <= i < |tasks| && i != id ==> tasks'[i] == tasks[i])
              && (|tasks'| > |tasks| ==> forall i :: 1 <= i < |tasks| ==> TaskLive(tasks, i))
    ensures Started(tasks, future).None? <==>
              |tasks| >= MAX_N_TASKS && forall i :: 1 <= i < |tasks| ==> TaskLive(tasks, i)
  {
    var id := FirstFreeTask(tasks, 1);
    assert id < |tasks| ==> !TaskLive(tasks, id);
  }

  /** `start_spawned_tasks`: each queued future takes a slot and is marked ready, in order. */
  ghost function StartedAll(tasks: seq<Option<nat>>, ready: seq<int>, futures: seq<nat>): Option<(seq<Option<nat>>, seq<int>)> {
    if futures == [] then Some((tasks, ready))
    else
      match StartedAll(tasks, ready, futures[..|futures| - 1])
      case None => None
      case Some((tasks', ready')) =>
        match Started(tasks', futures[|futures| - 1])
        case None => None
        case Some((tasks'', id)) => Some((tasks'', Pushed(ready', id)))
  }

  /** Started together, the futures of one poll hold distinct slots and are all ready; nothing live moved. */
  lemma {:induction false} StartedAllReady(tasks: seq<Option<nat>>, ready: seq<int>, futures: seq<nat>)
    requires tasks != []
    requires StartedAll(tasks, ready, futures).Some?
    ensures var (tasks', ready') := StartedAll(tasks, ready, futures).value;
            && |tasks| <= |tasks'|
            && tasks'[0] == tasks[0]
            && (forall i :: 1 <= i < |tasks| && tasks[i].Some? ==> tasks'[i] == tasks[i])
            && (forall f :: f in futures ==> HoldsReadySlot(tasks', ready', f))
            && Elems(ready) <= Elems(ready')
  {
    if futures != [] {
      var n := |futures| - 1;
      StartedAllReady(tasks, ready, futures[..n]);
      var (tasks1, ready1) := StartedAll(tasks, ready, futures[..n]).value;
      StartTakesFreeSlot(tasks1, futures[n]);
      var (tasks2, id) := Started(tasks1, futures[n]).value;
      PushRefinesSet(ready1, id);
      forall f | f in futures
        ensures HoldsReadySlot(tasks2, Pushed(ready1, id), f)
      {
        if f == futures[n] {
          assert id in Elems(Pushed(ready1, id));
        } else {
          assert f in futures[..n];
          var k :| 0 < k < |tasks1| && tasks1[k] == Some(f) && k in ready1;
          assert k in Elems(ready1);
          assert k in Elems(Pushed(ready1, id));
        }
      }
    }
  }

  ghost predicate HoldsReadySlot(tasks: seq<Option<nat>>, ready: seq<int>, future: nat) {
    exists k :: 0 < k < |tasks| && tasks[k] == Some(future) && k in ready
  }
}
