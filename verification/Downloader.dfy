/**
 * The IPFS downloader's queue: at most `maxDownloading` downloads at a time, at most `maxPending` waiting,
 * and tasks that take the next waiting content id when they finish one. Content ids are numbered in
 * their string order.
 */
module Downloaders {
  import opened Common

  type Cid = nat

  datatype Config = Config(maxDownloading: nat, maxPending: nat)

  datatype State = State(downloading: set<Cid>, pending: set<Cid>)

  datatype Answer = Present | Underway | Started | Queued | Full

  ghost function Requested(c: Config, s: State, cid: Cid, force: bool, present: bool): (State, Answer) {
    if !force && present then (s, Present)
    else if cid in s.downloading || cid in s.pending then (s, Underway)
    else if |s.downloading| < c.maxDownloading then (s.(downloading := s.downloading + {cid}), Started)
    else if |s.pending| < c.maxPending then (s.(pending := s.pending + {cid}), Queued)
    else (s, Full)
  }

  /** A task is done with `cid`; it goes on with the least waiting id, if there is one. */
  ghost function Finished(s: State, cid: Cid): (State, Option<Cid>) {
    var left := s.downloading - {cid};
    if s.pending == {} then (s.(downloading := left), None)
    else (State(left + {MinOf(s.pending)}, s.pending - {MinOf(s.pending)}), Some(MinOf(s.pending)))
  }

  class Downloader {
    var downloading: set<Cid>
    var pending: set<Cid>
    const config: Config

    ghost function Model(): State
      reads this
    {
      State(downloading, pending)
    }

    constructor (config: Config)
      ensures Model() == State({}, {}) && this.config == config
    {
      downloading, pending := {}, {};
      this.config := config;
    }

    method Download(cid: Cid, force: bool, present: bool) returns (r: Answer)
      modifies this
      ensures (Model(), r) == Requested(config, old(Model()), cid, force, present)
    {
      if !force && present {
        return Present;
      }
      if cid in downloading || cid in pending {
        return Underway;
      }
      if |downloading| < config.maxDownloading {
        downloading := downloading + {cid};
        return Started;
      } else if |pending| < config.maxPending {
        pending := pending + {cid};
        return Queued;
      }
      r := Full;
    }

    /** The end of one turn of a download task. */
    method Finish(cid: Cid) returns (next: Option<Cid>)
      modifies this
      ensures (Model(), next) == Finished(old(Model()), cid)
    {
      downloading := downloading - {cid};
      next := None;
      if pending != {} {
        ghost var least := MinOf(pending);
        var first :| first in pending && forall x :: x in pending ==> first <= x;
        pending := pending - {first};
        downloading := downloading + {first};
        next := Some(first);
      }
    }
  }

  // Runs

  /** `tasks` holds what each running task downloads; the last two fields record what was taken in and done. */
  datatype World = World(s: State, tasks: multiset<Cid>, accepted: multiset<Cid>, done: multiset<Cid>)

  datatype Step = Ask(cid: Cid, force: bool, present: bool) | Done(cid: Cid)

  ghost predicate Enabled(w: World, step: Step) {
    step.Done? ==> step.cid in w.tasks
  }

  ghost function Apply(c: Config, w: World, step: Step): World {
    match step
    case Ask(cid, force, present) =>
      var (s, r) := Requested(c, w.s, cid, force, present);
      w.(s := s,
         tasks := if r.Started? then w.tasks + multiset{cid} else w.tasks,
         accepted := if r.Started? || r.Queued? then w.accepted + multiset{cid} else w.accepted)
    case Done(cid) =>
      var (s, next) := Finished(w.s, cid);
      w.(s := s,
         tasks := w.tasks - multiset{cid} + (if next.Some? then multiset{next.value} else multiset{}),
         done := w.done + multiset{cid})
  }

  ghost predicate IsRun(c: Config, w: World, run: seq<Step>)
    decreases run
  {
    run == [] || (Enabled(w, run[0]) && IsRun(c, Apply(c, w, run[0]), run[1..]))
  }

  ghost function Exec(c: Config, w: World, run: seq<Step>): World
    decreases run
  {
    if run == [] then w else Exec(c, Apply(c, w, run[0]), run[1..])
  }

  const IDLE: World := World(State({}, {}), multiset{}, multiset{}, multiset{})

  ghost predicate Inv(c: Config, w: World) {
    && w.s.downloading !! w.s.pending
    && |w.s.downloading| <= c.maxDownloading
    && |w.s.pending| <= c.maxPending
    && (w.s.pending != {} ==> |w.s.downloading| == c.maxDownloading)
    && w.tasks == multiset(w.s.downloading)
    && w.accepted == w.done + multiset(w.s.downloading) + multiset(w.s.pending)
  }

  lemma AskKeepsInv(c: Config, w: World, cid: Cid, force: bool, present: bool)
    requires Inv(c, w)
    ensures Inv(c, Apply(c, w, Ask(cid, force, present)))
  {
    var r := Requested(c, w.s, cid, force, present).1;
    if r.Started? {
      assert multiset(w.s.downloading + {cid}) == multiset(w.s.downloading) + multiset{cid};
    } else if r.Queued? {
      assert multiset(w.s.pending + {cid}) == multiset(w.s.pending) + multiset{cid};
    }
  }

  lemma SetSplit(a: set<Cid>, x: Cid)
    requires x in a
    ensures |a - {x}| == |a| - 1
    ensures multiset(a) == multiset(a - {x}) + multiset{x}
  {
    assert a == (a - {x}) + {x};
  }

  lemma DoneKeepsInv(c: Config, w: World, cid: Cid)
    requires Inv(c, w) && cid in w.tasks
    ensures Inv(c, Apply(c, w, Done(cid)))
  {
    assert cid in w.s.downloading;
    var left := w.s.downloading - {cid};
    SetSplit(w.s.downloading, cid);
    if w.s.pending != {} {
      var next := MinOf(w.s.pending);
      SetSplit(w.s.pending, next);
      assert (left + {next}) - {next} == left;
      SetSplit(left + {next}, next);
    }
  }

  lemma {:induction false} RunKeepsInv(c: Config, w: World, run: seq<Step>)
    requires Inv(c, w) && IsRun(c, w, run)
    ensures Inv(c, Exec(c, w, run))
    decreases run
  {
    if run != [] {
      match run[0] {
        case Ask(cid, force, present) => AskKeepsInv(c, w, cid, force, present);
        case Done(cid) => DoneKeepsInv(c, w, cid);
      }
      hide Apply, Inv;
      RunKeepsInv(c, Apply(c, w, run[0]), run[1..]);
    }
  }

  /** The limits hold, nothing waits while there is room, and every id being downloaded has exactly one task. */
  lemma LimitsHold(c: Config, run: seq<Step>)
    requires IsRun(c, IDLE, run)
    ensures var w := Exec(c, IDLE, run);
      && |w.s.downloading| <= c.maxDownloading && |w.s.pending| <= c.maxPending
      && w.s.downloading !! w.s.pending
      && (w.s.pending != {} ==> |w.s.downloading| == c.maxDownloading)
      && w.tasks == multiset(w.s.downloading)
  {
    RunKeepsInv(c, IDLE, run);
  }

  /** Every id that was accepted is done, being downloaded or waiting, as often as it was accepted. */
  lemma NothingIsLost(c: Config, run: seq<Step>)
    requires IsRun(c, IDLE, run)
    ensures var w := Exec(c, IDLE, run);
      w.accepted == w.done + multiset(w.s.downloading) + multiset(w.s.pending)
  {
    RunKeepsInv(c, IDLE, run);
  }

  lemma UnderwayIff(c: Config, w: World, cid: Cid)
    requires Inv(c, w)
    ensures w.accepted[cid] > w.done[cid] <==> cid in w.s.downloading || cid in w.s.pending
    ensures |w.tasks| == |w.s.downloading|
    ensures |w.accepted| == |w.done| + |w.s.downloading| + |w.s.pending|
  {
    assert w.accepted[cid] == w.done[cid] + multiset(w.s.downloading)[cid] + multiset(w.s.pending)[cid];
    assert |w.accepted| == |w.done| + |multiset(w.s.downloading)| + |multiset(w.s.pending)|;
  }

  /**
   * What a request is answered: only one that is not forced is spared because the file is there; any
   * other is turned away while an accepted one for the same id is not done, and is otherwise started, kept
   * waiting or refused by how many tasks run and how many accepted ids wait.
   */
  ghost predicate AnsweredRightly(c: Config, w: World, ask: Step, r: Answer)
    requires ask.Ask?
  {
    var waiting := |w.accepted| - |w.done| - |w.tasks|;
    var wanted := (ask.force || !ask.present) && w.accepted[ask.cid] == w.done[ask.cid];
    && (r == Present <==> ask.present && !ask.force)
    && (r == Underway <==> (ask.force || !ask.present) && w.accepted[ask.cid] > w.done[ask.cid])
    && (r == Started <==> wanted && |w.tasks| < c.maxDownloading)
    && (r == Queued <==> wanted && |w.tasks| == c.maxDownloading && waiting < c.maxPending)
    && (r == Full <==> wanted && |w.tasks| == c.maxDownloading && waiting == c.maxPending)
  }

  lemma AskOutcome(c: Config, w: World, cid: Cid, force: bool, present: bool)
    requires Inv(c, w)
    ensures AnsweredRightly(c, w, Ask(cid, force, present), Requested(c, w.s, cid, force, present).1)
  {
    UnderwayIff(c, w, cid);
    assert w.accepted[cid] >= w.done[cid];
    assert |w.s.downloading| <= c.maxDownloading && |w.s.pending| <= c.maxPending;
    hide Inv;
  }

  /** In every run, each request gets the right answer, and takes effect as answered. */
  lemma RequestOutcome(c: Config, run: seq<Step>, cid: Cid, force: bool, present: bool)
    requires IsRun(c, IDLE, run)
    ensures var w, ask := Exec(c, IDLE, run), Ask(cid, force, present);
      var w', r := Apply(c, w, ask), Requested(c, w.s, cid, force, present).1;
      && AnsweredRightly(c, w, ask, r)
      && w'.accepted == w.accepted + (if r == Started || r == Queued then multiset{cid} else multiset{})
      && w'.tasks == w.tasks + (if r == Started then multiset{cid} else multiset{})
      && w'.done == w.done
  {
    RunKeepsInv(c, IDLE, run);
    AskOutcome(c, Exec(c, IDLE, run), cid, force, present);
    hide Exec, IsRun, Inv, AnsweredRightly, Requested;
  }

  /** `cid` is accepted, not done, and no task works on it. */
  ghost predicate Waits(w: World, cid: Cid) {
    w.accepted[cid] > w.done[cid] && cid !in w.tasks
  }

  ghost predicate IsLeastWaiting(w: World, next: Option<Cid>) {
    match next
    case None => forall x :: !Waits(w, x)
    case Some(x) => Waits(w, x) && forall y :: Waits(w, y) ==> x <= y
  }

  lemma FirstPendingIsLeastWaiting(c: Config, w: World)
    requires Inv(c, w)
    ensures IsLeastWaiting(w, if w.s.pending == {} then None else Some(MinOf(w.s.pending)))
  {
    forall x
      ensures Waits(w, x) <==> x in w.s.pending
    {
      UnderwayIff(c, w, x);
    }
    hide Waits, Inv;
  }

  lemma LeastWaitingIsUnique(w: World, a: Option<Cid>, b: Option<Cid>)
    requires IsLeastWaiting(w, a) && IsLeastWaiting(w, b)
    ensures a == b
  {
    hide Waits;
  }

  lemma DoneTakesFirst(c: Config, w: World, cid: Cid)
    ensures var w' := Apply(c, w, Done(cid));
      var next := if w.s.pending == {} then None else Some(MinOf(w.s.pending));
      && w'.tasks == w.tasks - multiset{cid} + (if next.Some? then multiset{next.value} else multiset{})
      && w'.done == w.done + multiset{cid} && w'.accepted == w.accepted
  {
  }

  /** In every run, a task that is done goes on with the least id that waits, and ends if and only if none does. */
  lemma DoneOutcome(c: Config, run: seq<Step>, cid: Cid, next: Option<Cid>)
    requires IsRun(c, IDLE, run) && Enabled(Exec(c, IDLE, run), Done(cid))
    requires IsLeastWaiting(Exec(c, IDLE, run), next)
    ensures var w := Exec(c, IDLE, run);
      var w' := Apply(c, w, Done(cid));
      && w'.tasks == w.tasks - multiset{cid} + (if next.Some? then multiset{next.value} else multiset{})
      && w'.done == w.done + multiset{cid} && w'.accepted == w.accepted
  {
    RunKeepsInv(c, IDLE, run);
    var w := Exec(c, IDLE, run);
    FirstPendingIsLeastWaiting(c, w);
    hide Exec, IsRun, Inv, Waits, Apply;
    LeastWaitingIsUnique(w, next, if w.s.pending == {} then None else Some(MinOf(w.s.pending)));
    DoneTakesFirst(c, w, cid);
  }

  /** Each finished download brings the rest one closer to the end. */
  lemma {:induction false} DoneRunDrains(c: Config, w: World, run: seq<Step>)
    requires Inv(c, w) && IsRun(c, w, run)
    requires forall i :: 0 <= i < |run| ==> run[i].Done?
    ensures |run| + |Exec(c, w, run).s.downloading| + |Exec(c, w, run).s.pending|
         == |w.s.downloading| + |w.s.pending|
    decreases run
  {
    if run != [] {
      var cid := run[0].cid;
      DoneKeepsInv(c, w, cid);
      assert cid in w.s.downloading;
      DoneRunDrains(c, Apply(c, w, run[0]), run[1..]);
    }
  }

  /**
   * With no new requests, the tasks finish everything: work that is left can always go on, and after as
   * many completions as there were ids every accepted one is done.
   */
  lemma QueueDrains(c: Config, before: seq<Step>, run: seq<Step>)
    requires c.maxDownloading > 0
    requires IsRun(c, IDLE, before) && IsRun(c, Exec(c, IDLE, before), run)
    requires forall i :: 0 <= i < |run| ==> run[i].Done?
    ensures var w, w' := Exec(c, IDLE, before), Exec(c, Exec(c, IDLE, before), run);
      && (w'.accepted == w'.done <==> |run| == |w.s.downloading| + |w.s.pending|)
      && (w'.accepted != w'.done ==> w'.tasks != multiset{})
  {
    var w := Exec(c, IDLE, before);
    RunKeepsInv(c, IDLE, before);
    RunKeepsInv(c, w, run);
    DoneRunDrains(c, w, run);
    var w' := Exec(c, w, run);
    hide Exec, IsRun;
    if w'.accepted == w'.done {
      assert multiset(w'.s.downloading) + multiset(w'.s.pending) == w'.accepted - w'.done == multiset{};
      assert |w'.s.downloading| == |multiset(w'.s.downloading)| && |w'.s.pending| == |multiset(w'.s.pending)|;
    } else {
      assert w'.s.downloading != {};
      assert |multiset(w'.s.downloading)| > 0;
    }
  }
}
