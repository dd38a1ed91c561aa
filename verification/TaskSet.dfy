/**
 * The host's task set: a FIFO of task ids that are ready to be polled, and a FIFO of messages
 * about guest wakers. A push is suppressed when the id is among the last eight entries, so the
 * ready queue is an approximation of a set; this module says how good an approximation.
 */
module TaskSets {
  import opened Common

  /** How far back a push looks for its own id. */
  const LOOK_BACK := 8

  ghost function Recent(q: seq<int>): seq<int> {
    if |q| <= LOOK_BACK then q else q[|q| - LOOK_BACK..]
  }

  ghost function Pushed(q: seq<int>, id: int): seq<int> {
    if id in Recent(q) then q else q + [id]
  }

  /** Any LOOK_BACK + 1 consecutive entries are pairwise distinct. */
  ghost predicate Spaced(q: seq<int>) {
    forall i, j :: 0 <= i < j < |q| && j - i <= LOOK_BACK ==> q[i] != q[j]
  }

  /** Seen as a set, a push adds exactly its id; nothing already queued moves. */
  lemma PushRefinesSet(q: seq<int>, id: int)
    ensures Elems(Pushed(q, id)) == Elems(q) + {id}
    ensures q <= Pushed(q, id)
    ensures |Pushed(q, id)| <= |q| + 1
    ensures Spaced(q) ==> Spaced(Pushed(q, id))
  {
    var r := Pushed(q, id);
    if id in Recent(q) {
      var k :| 0 <= k < |Recent(q)| && Recent(q)[k] == id;
      assert id in q;
    } else if Spaced(q) {
      forall i, j | 0 <= i < j < |r| && j - i <= LOOK_BACK
        ensures r[i] != r[j]
      {
        if j == |q| {
          assert r[i] == Recent(q)[i - (|q| - |Recent(q)|)];
        }
      }
    }
  }

  lemma PopRefinesSet(q: seq<int>)
    requires q != []
    ensures Elems(q) == {q[0]} + Elems(q[1..])
    ensures Spaced(q) ==> Spaced(q[1..])
  {
    assert q == [q[0]] + q[1..];
  }

  /** With at most eight ids in play the queue is a set: no duplicates, at most eight entries. */
  lemma FewIdsNoDuplicates(q: seq<int>)
    requires Spaced(q)
    requires |Elems(q)| <= LOOK_BACK
    ensures Distinct(q)
    ensures |q| <= LOOK_BACK
  {
    if |q| > LOOK_BACK {
      var p := q[..LOOK_BACK + 1];
      DistinctCardinality(p);
      SubsetCardinality(Elems(p), Elems(q));
      assert false;
    }
  }

  /** One operation on the ready queue; a pop of an empty queue leaves it empty. */
  datatype QueueOp = Push(id: int) | Pop

  ghost function ApplyOp(q: seq<int>, op: QueueOp): seq<int> {
    match op
    case Push(id) => Pushed(q, id)
    case Pop => if q == [] then q else q[1..]
  }

  ghost function RunOps(q: seq<int>, ops: seq<QueueOp>): seq<int>
    decreases |ops|
  {
    if ops == [] then q else RunOps(ApplyOp(q, ops[0]), ops[1..])
  }

  /** Every history of pushes and pops that only uses ids of `ids`. */
  ghost predicate UsesOnly(ops: seq<QueueOp>, ids: set<int>) {
    forall k :: 0 <= k < |ops| && ops[k].Push? ==> ops[k].id in ids
  }

  /** The queue starts as `[0]` and stays spaced; with at most eight ids it never holds a duplicate. */
  lemma {:induction false} QueueHistory(q: seq<int>, ops: seq<QueueOp>, ids: set<int>)
    requires Spaced(q)
    requires Elems(q) <= ids
    requires UsesOnly(ops, ids)
    ensures Spaced(RunOps(q, ops))
    ensures Elems(RunOps(q, ops)) <= ids
    ensures |ids| <= LOOK_BACK ==> Distinct(RunOps(q, ops)) && |RunOps(q, ops)| <= LOOK_BACK
    decreases |ops|
  {
    if ops == [] {
      SubsetCardinality(Elems(q), ids);
      if |ids| <= LOOK_BACK {
        FewIdsNoDuplicates(q);
      }
    } else {
      match ops[0] {
        case Push(id) => PushRefinesSet(q, id);
        case Pop => if q != [] { PopRefinesSet(q); }
      }
      assert forall k :: 0 <= k < |ops[1..]| ==> ops[1..][k] == ops[k + 1];
      QueueHistory(ApplyOp(q, ops[0]), ops[1..], ids);
    }
  }

  /** A push duplicates an id exactly when the id is queued further back than the look-back reaches. */
  lemma PushDuplicatesIff(q: seq<int>, id: int)
    requires Distinct(q)
    ensures !Distinct(Pushed(q, id)) <==> id in q[..|q| - |Recent(q)|]
  {
    var r, older := Pushed(q, id), q[..|q| - |Recent(q)|];
    assert q == older + Recent(q);
    if id in older {
      var k :| 0 <= k < |older| && older[k] == id;
      assert id !in Recent(q) by {
        assert forall i :: 0 <= i < |Recent(q)| ==> Recent(q)[i] == q[|older| + i];
      }
      assert r[k] == r[|q|];
    }
  }

  class TaskSet {
    var awakeTasks: seq<int>
    /** Waker ids to wake, or `-1 - id` for a waker to drop. */
    var awakeWakers: seq<int>

    constructor WithTask0()
      ensures awakeTasks == [0] && awakeWakers == []
    {
      awakeTasks, awakeWakers := [0], [];
    }

    method PushTask(id: int)
      modifies this`awakeTasks
      ensures awakeTasks == Pushed(old(awakeTasks), id)
    {
      var found, n, k := false, |awakeTasks|, 0;
      while k < n && k < LOOK_BACK && !found
        invariant 0 <= k <= n && k <= LOOK_BACK
        invariant found <==> k > 0 && awakeTasks[n - k] == id
        invariant forall i :: n - k < i < n ==> awakeTasks[i] != id
      {
        k := k + 1;
        found := awakeTasks[n - k] == id;
      }
      if found {
        assert Recent(awakeTasks)[|Recent(awakeTasks)| - k] == id;
      } else {
        awakeTasks := awakeTasks + [id];
      }
    }

    method PopTask() returns (id: Option<int>)
      modifies this`awakeTasks
      ensures old(awakeTasks) == [] ==> id == None && awakeTasks == []
      ensures old(awakeTasks) != [] ==> id == Some(old(awakeTasks)[0]) && awakeTasks == old(awakeTasks)[1..]
    {
      if awakeTasks == [] {
        return None;
      }
      id := Some(awakeTasks[0]);
      awakeTasks := awakeTasks[1..];
    }

    method IsEmpty() returns (empty: bool)
      ensures empty <==> awakeTasks == [] && awakeWakers == []
    {
      empty := awakeTasks == [] && awakeWakers == [];
    }

    /** `GuestWaker::wake_by_ref`. */
    method PushWake(id: int)
      modifies this`awakeWakers
      ensures awakeWakers == old(awakeWakers) + [id]
    {
      awakeWakers := awakeWakers + [id];
    }

    /** The last clone of a `GuestWaker` is gone. */
    method PushDrop(id: int)
      modifies this`awakeWakers
      ensures awakeWakers == old(awakeWakers) + [-1 - id]
    {
      awakeWakers := awakeWakers + [-1 - id];
    }

    method DrainWakers() returns (messages: seq<int>)
      modifies this`awakeWakers
      ensures messages == old(awakeWakers) && awakeWakers == []
    {
      messages := awakeWakers;
      awakeWakers := [];
    }
  }
}
