/**
 * A poll keeps every item within its bounds, with the launches counted in the log of all actions
 * asked for so far.
 */
module PollBounds {
  import opened OrchestratorTypes
  import opened Lifecycle
  import opened LifecycleFacts
  import opened LifecycleSteps
  import opened Poll
  import opened PollFacts
  import opened PollQueues
  import opened PollTheorems

  /** The history the log tells of one item. */
  function HistoryOf(cfg: Config, id: Id, log: seq<Action>, resets: int, approved: bool): History {
    History(Count(cfg, id, log).reviews, Count(cfg, id, log).fixers, resets, approved)
  }

  /** The item is within its bounds, for some number of adopted repair pull requests. */
  ghost predicate Bounded(cfg: Config, it: Item, log: seq<Action>, approved: bool) {
    exists resets :: Inv(cfg, it, HistoryOf(cfg, it.id, log, resets, approved))
  }

  ghost predicate AllBounded(cfg: Config, items: seq<Item>, log: seq<Action>, approvals: set<Id>) {
    forall k :: 0 <= k < |items| ==> Bounded(cfg, items[k], log, items[k].id in approvals)
  }

  lemma BoundedParkedOk(cfg: Config, items: seq<Item>, log: seq<Action>, approvals: set<Id>)
    requires AllBounded(cfg, items, log, approvals)
    ensures AllParkedOk(items)
  {
    hide HistoryOf;
    forall k | 0 <= k < |items| ensures ParkedOk(items[k]) {
      assert Bounded(cfg, items[k], log, items[k].id in approvals);
    }
  }

  lemma MoreApprovals(cfg: Config, items: seq<Item>, log: seq<Action>, fewer: set<Id>, more: set<Id>)
    requires AllBounded(cfg, items, log, fewer) && fewer <= more
    ensures AllBounded(cfg, items, log, more)
  {
    hide Count;
    forall k | 0 <= k < |items| ensures Bounded(cfg, items[k], log, items[k].id in more) {
      assert Bounded(cfg, items[k], log, items[k].id in fewer);
      var resets :| Inv(cfg, items[k], HistoryOf(cfg, items[k].id, log, resets, items[k].id in fewer));
      assert Inv(cfg, items[k], HistoryOf(cfg, items[k].id, log, resets, items[k].id in more));
    }
  }

  // ---- Actions that do not concern an item ------------------------------------------------

  /** The actions contain neither a review launch nor a forward-fixer launch of the item. */
  predicate Unconcerned(cfg: Config, id: Id, actions: seq<Action>) {
    Count(cfg, id, actions).reviews == 0 && Count(cfg, id, actions).fixers == 0
  }

  /** A list whose notable actions are all one item's does not concern any other. */
  lemma {:induction false} OwnActionsOnly(cfg: Config, id: Id, other: Id, actions: seq<Action>)
    requires Count(cfg, id, actions).foreign == 0 && other != id
    ensures Unconcerned(cfg, other, actions)
  {
    hide TallyOf;
    if actions != [] {
      CountStep(cfg, id, actions);
      CountStep(cfg, other, actions);
      TallyMeans(cfg, id, actions[0]);
      TallyOfOther(cfg, id, other, actions[0]);
      OwnActionsOnly(cfg, id, other, actions[1..]);
    }
  }

  lemma TallyOfOther(cfg: Config, id: Id, other: Id, a: Action)
    requires TallyOf(cfg, id, a).foreign == 0 && other != id
    ensures TallyOf(cfg, other, a).reviews == 0 && TallyOf(cfg, other, a).fixers == 0
  {
  }

  lemma {:induction false} LaunchesUnconcern(cfg: Config, id: Id, actions: seq<Action>)
    requires forall a :: a in actions ==> a.Launch?
    ensures Unconcerned(cfg, id, actions)
  {
    if actions != [] {
      LaunchesUnconcern(cfg, id, actions[1..]);
    }
  }

  /** The log grows by actions that do not concern the item, which at most moves to another state. */
  lemma BoundedStays(cfg: Config, it: Item, next: Item, log: seq<Action>, actions: seq<Action>, approved: bool)
    requires Bounded(cfg, it, log, approved) && Unconcerned(cfg, it.id, actions)
    requires next == it || (OnlyMoved(it, next) && !it.state.Stuck? && !next.state.Merging? && !Repairing(next.state))
    ensures Bounded(cfg, next, log + actions, approved)
  {
    hide Count;
    CountConcat(cfg, it.id, log, actions);
    var resets :| Inv(cfg, it, HistoryOf(cfg, it.id, log, resets, approved));
    assert HistoryOf(cfg, next.id, log + actions, resets, approved) == HistoryOf(cfg, it.id, log, resets, approved);
    assert Inv(cfg, next, HistoryOf(cfg, next.id, log + actions, resets, approved));
  }

  // ---- The transitions --------------------------------------------------------------------

  /** The item's own transition, with what it asked for added to the log. */
  lemma BoundedStep(cfg: Config, it: Item, log: seq<Action>, approved: bool, snap: Snapshot, now: int, actions: seq<Action>)
    requires Bounded(cfg, it, log, approved) && !ItemThrows(cfg, it, snap, now)
    requires ApproveSeen(it, snap) ==> approved
    requires TransitionItem(cfg, it, snap, now).Step?
    requires Count(cfg, it.id, actions) == Count(cfg, it.id, TransitionItem(cfg, it, snap, now).actions)
    ensures TransitionItem(cfg, it, snap, now).item.id == it.id
    ensures Bounded(cfg, TransitionItem(cfg, it, snap, now).item, log + actions, approved)
  {
    hide Count, Inv, TransitionItem, ItemThrows;
    var resets :| Inv(cfg, it, HistoryOf(cfg, it.id, log, resets, approved));
    var h := HistoryOf(cfg, it.id, log, resets, approved);
    PollKeepsInv(cfg, it, h, snap, now);
    var step := TransitionItem(cfg, it, snap, now);
    var later := Advance(cfg, h, it, snap, step.actions);
    CountConcat(cfg, it.id, log, actions);
    assert later == HistoryOf(cfg, it.id, log + actions, later.resets, approved);
    assert Inv(cfg, step.item, HistoryOf(cfg, step.item.id, log + actions, later.resets, approved));
  }

  /** Every approve verdict this poll reads from index `i` on is among the approvals. */
  predicate ApprovalsKnown(items: seq<Item>, i: nat, snaps: map<Id, Snapshot>, approvals: set<Id>) {
    forall k :: i <= k < |items| && ApproveSeen(items[k], SnapshotOf(snaps, items[k].id)) ==> items[k].id in approvals
  }

  lemma VisitBounded(cfg: Config, items: seq<Item>, i: nat, snaps: map<Id, Snapshot>, now: int,
                     log: seq<Action>, approvals: set<Id>)
    requires i < |items| && DistinctIds(items) && AllBounded(cfg, items, log, approvals)
    requires ApprovalsKnown(items, i, snaps, approvals)
    requires VisitItem(cfg, items, i, snaps, now).Sweep?
    ensures var s := VisitItem(cfg, items, i, snaps, now);
      SameIds(items, s.items) && AllBounded(cfg, s.items, log + s.actions, approvals)
  {
    hide Count, Inv, TransitionItem, ItemThrows, VisitItem, ParkedOk, Bounded, HistoryOf, FeedbackSettled, ApproveSeen;
    BoundedParkedOk(cfg, items, log, approvals);
    var it, snap := items[i], SnapshotOf(snaps, items[i].id);
    VisitIsTransition(cfg, items, i, snaps, now);
    ThrowsExactly(cfg, it, snap, now);
    var s := VisitItem(cfg, items, i, snaps, now);
    forall k | 0 <= k < |items| ensures s.items[k].id == items[k].id && Bounded(cfg, s.items[k], log + s.actions, items[k].id in approvals) {
      if k == i {
        BoundedStep(cfg, it, log, it.id in approvals, snap, now, s.actions);
      } else {
        OwnActionsOnly(cfg, it.id, items[k].id, s.actions);
        BoundedStays(cfg, items[k], s.items[k], log, s.actions, items[k].id in approvals);
      }
    }
  }

  lemma {:induction false} VisitFromBounded(cfg: Config, items: seq<Item>, i: nat, snaps: map<Id, Snapshot>, now: int,
                                            log: seq<Action>, approvals: set<Id>)
    requires i <= |items| && DistinctIds(items) && AllBounded(cfg, items, log, approvals)
    requires ApprovalsKnown(items, i, snaps, approvals)
    requires VisitFrom(cfg, items, i, snaps, now).Sweep?
    ensures var r := VisitFrom(cfg, items, i, snaps, now);
      SameIds(items, r.items) && AllBounded(cfg, r.items, log + r.actions, approvals)
    decreases |items| - i
  {
    hide Count, VisitItem, ParkedOk, Bounded;
    if i == |items| {
      assert log + [] == log;
    } else {
      BoundedParkedOk(cfg, items, log, approvals);
      VisitBounded(cfg, items, i, snaps, now, log, approvals);
      VisitIsTransition(cfg, items, i, snaps, now);
      var s := VisitItem(cfg, items, i, snaps, now);
      VisitFromBounded(cfg, s.items, i + 1, snaps, now, log + s.actions, approvals);
      var rest := VisitFrom(cfg, s.items, i + 1, snaps, now);
      assert log + s.actions + rest.actions == log + (s.actions + rest.actions);
    }
  }

  /** The re-evaluation of one item. */
  lemma ReevaluateBounded(cfg: Config, it: Item, log: seq<Action>, approved: bool, snap: Snapshot, now: int)
    requires Bounded(cfg, it, log, approved)
    ensures var step := Reevaluate(cfg, it, snap, now);
      && step.Step? && step.item.id == it.id && Count(cfg, it.id, step.actions).foreign == 0
      && Bounded(cfg, step.item, log + step.actions, approved)
  {
    hide Count, Reevaluate;
    var resets :| Inv(cfg, it, HistoryOf(cfg, it.id, log, resets, approved));
    var h := HistoryOf(cfg, it.id, log, resets, approved);
    ReevaluateKeeps(cfg, it, snap, now);
    var step := Reevaluate(cfg, it, snap, now);
    KeepsInv(cfg, it, h, step);
    CountConcat(cfg, it.id, log, step.actions);
    assert Tallied(h, Count(cfg, it.id, step.actions)) == HistoryOf(cfg, step.item.id, log + step.actions, resets, approved);
    assert Inv(cfg, step.item, HistoryOf(cfg, step.item.id, log + step.actions, resets, approved));
  }

  lemma {:induction false} ReevaluateFromBounded(cfg: Config, items: seq<Item>, i: nat, snaps: map<Id, Snapshot>, now: int,
                                                 log: seq<Action>, approvals: set<Id>)
    requires i <= |items| && DistinctIds(items) && AllBounded(cfg, items, log, approvals)
    ensures var r := ReevaluateFrom(cfg, items, i, snaps, now);
      r.Sweep? && SameIds(items, r.items) && AllBounded(cfg, r.items, log + r.actions, approvals)
    decreases |items| - i
  {
    hide Count, Reevaluate, Bounded;
    if i == |items| {
      assert log + [] == log;
    } else {
      var it := items[i];
      ReevaluateBounded(cfg, it, log, it.id in approvals, SnapshotOf(snaps, it.id), now);
      var step := Reevaluate(cfg, it, SnapshotOf(snaps, it.id), now);
      var next := items[i := step.item];
      forall k | 0 <= k < |items| && k != i ensures Bounded(cfg, items[k], log + step.actions, items[k].id in approvals) {
        OwnActionsOnly(cfg, it.id, items[k].id, step.actions);
        BoundedStays(cfg, items[k], items[k], log, step.actions, items[k].id in approvals);
      }
      ReevaluateFromBounded(cfg, next, i + 1, snaps, now, log + step.actions, approvals);
      var rest := ReevaluateFrom(cfg, next, i + 1, snaps, now);
      assert log + step.actions + rest.actions == log + (step.actions + rest.actions);
    }
  }

  lemma TransitionedBounded(cfg: Config, items: seq<Item>, reevaluate: bool, snaps: map<Id, Snapshot>, now: int,
                            log: seq<Action>, approvals: set<Id>)
    requires DistinctIds(items) && AllBounded(cfg, items, log, approvals) && ApprovalsKnown(items, 0, snaps, approvals)
    requires Transitioned(cfg, items, reevaluate, snaps, now).Sweep?
    ensures var r := Transitioned(cfg, items, reevaluate, snaps, now);
      SameIds(items, r.items) && AllBounded(cfg, r.items, log + r.actions, approvals)
  {
    hide VisitFrom, ReevaluateFrom, AllBounded, ApprovalsKnown;
    VisitFromBounded(cfg, items, 0, snaps, now, log, approvals);
    var visited := VisitFrom(cfg, items, 0, snaps, now);
    if reevaluate {
      ReevaluateFromBounded(cfg, visited.items, 0, snaps, now, log + visited.actions, approvals);
      var evaluated := ReevaluateFrom(cfg, visited.items, 0, snaps, now);
      assert log + visited.actions + evaluated.actions == log + (visited.actions + evaluated.actions);
    }
  }

  // ---- The queues -------------------------------------------------------------------------

  lemma {:induction false} KeepOneMergeCounts(cfg: Config, id: Id, actions: seq<Action>, keep: Id)
    ensures Count(cfg, id, KeepOneMerge(actions, keep)).reviews == Count(cfg, id, actions).reviews
    ensures Count(cfg, id, KeepOneMerge(actions, keep)).fixers == Count(cfg, id, actions).fixers
  {
    hide TallyOf;
    if actions != [] {
      KeepOneMergeCounts(cfg, id, actions[1..], keep);
      var kept := KeepOneMerge(actions[1..], keep);
      assert ([actions[0]] + kept)[1..] == kept && [] + kept == kept;
      if actions[0].Merge? {
        MergeTally(cfg, id, actions[0]);
      }
    }
  }

  lemma MergeTally(cfg: Config, id: Id, a: Action)
    requires a.Merge?
    ensures TallyOf(cfg, id, a).reviews == 0 && TallyOf(cfg, id, a).fixers == 0
  {
  }

  lemma QueueCounts(cfg: Config, id: Id, items: seq<Item>, actions: seq<Action>, now: int)
    requires PrioritizeMergeActions(items, actions, now).Sweep?
    ensures Count(cfg, id, PrioritizeMergeActions(items, actions, now).actions).reviews == Count(cfg, id, actions).reviews
    ensures Count(cfg, id, PrioritizeMergeActions(items, actions, now).actions).fixers == Count(cfg, id, actions).fixers
  {
    hide Count, MergesBefore, DeferFrom;
    var first := FirstToMerge(items, items, MergeIds(actions));
    if first >= 0 {
      KeepOneMergeCounts(cfg, id, actions, items[first].id);
    }
  }

  /** Only the counts of a log matter to the bounds. */
  lemma BoundedByCounts(cfg: Config, it: Item, log: seq<Action>, other: seq<Action>, approved: bool)
    requires Bounded(cfg, it, log, approved)
    requires Count(cfg, it.id, other).reviews == Count(cfg, it.id, log).reviews
    requires Count(cfg, it.id, other).fixers == Count(cfg, it.id, log).fixers
    ensures Bounded(cfg, it, other, approved)
  {
    hide Count, Inv;
    var resets :| Inv(cfg, it, HistoryOf(cfg, it.id, log, resets, approved));
    assert Inv(cfg, it, HistoryOf(cfg, it.id, other, resets, approved));
  }

  lemma LaunchedBounded(cfg: Config, items: seq<Item>, readyIds: set<Id>, now: int, log: seq<Action>, approvals: set<Id>)
    requires AllBounded(cfg, items, log, approvals)
    ensures var s := Launched(cfg, items, readyIds, now);
      SameIds(items, s.items) && AllBounded(cfg, s.items, log + s.actions, approvals)
  {
    hide Count, Launched, Bounded;
    LaunchedStarts(cfg, items, readyIds, now);
    LaunchedAreLaunches(cfg, items, readyIds, now);
    var s := Launched(cfg, items, readyIds, now);
    forall k | 0 <= k < |items|
      ensures s.items[k].id == items[k].id && Bounded(cfg, s.items[k], log + s.actions, items[k].id in approvals)
    {
      LaunchesUnconcern(cfg, items[k].id, s.actions);
      BoundedStays(cfg, items[k], s.items[k], log, s.actions, items[k].id in approvals);
    }
  }

  lemma QueueBounded(cfg: Config, items: seq<Item>, actions: seq<Action>, now: int, log: seq<Action>, approvals: set<Id>)
    requires Mergeable(items, actions) && AllBounded(cfg, items, log + actions, approvals)
    ensures var r := PrioritizeMergeActions(items, actions, now);
      r.Sweep? && SameIds(items, r.items) && AllBounded(cfg, r.items, log + r.actions, approvals)
  {
    hide Count, PrioritizeMergeActions, Bounded;
    QueueLeaves(items, actions, now);
    var r := PrioritizeMergeActions(items, actions, now);
    forall k | 0 <= k < |items|
      ensures r.items[k].id == items[k].id && Bounded(cfg, r.items[k], log + r.actions, items[k].id in approvals)
    {
      var id := items[k].id;
      CountQuiet(cfg, id, []);
      BoundedStays(cfg, items[k], r.items[k], log + actions, [], id in approvals);
      assert log + actions + [] == log + actions;
      QueueCounts(cfg, id, items, actions, now);
      CountConcat(cfg, id, log, actions);
      CountConcat(cfg, id, log, r.actions);
      BoundedByCounts(cfg, r.items[k], log + actions, log + r.actions, id in approvals);
    }
  }

  /** The ids whose approve verdict a poll reads. */
  function ApprovalsRead(items: seq<Item>, snaps: map<Id, Snapshot>): set<Id> {
    set k | 0 <= k < |items| && ApproveSeen(items[k], SnapshotOf(snaps, items[k].id)) :: items[k].id
  }

  /** Main result: a poll that does not crash keeps every item within its bounds. */
  lemma PollKeepsBounds(cfg: Config, items: seq<Item>, reevaluate: bool, snaps: map<Id, Snapshot>, readyIds: set<Id>, now: int,
                        log: seq<Action>, approvals: set<Id>)
    requires DistinctIds(items) && AllBounded(cfg, items, log, approvals)
    requires ProcessTransitions(cfg, items, reevaluate, snaps, readyIds, now).Sweep?
    ensures var r := ProcessTransitions(cfg, items, reevaluate, snaps, readyIds, now);
      && SameIds(items, r.items) && DistinctIds(r.items)
      && AllBounded(cfg, r.items, log + r.actions, approvals + ApprovalsRead(items, snaps))
  {
    hide AllBounded, ProcessTransitions, PrioritizeMergeActions, Transitioned, Launched, ThrowsFrom, Justified, Mergeable, AllParkedOk,
         AllEvolve, Started, ApproveSeen;
    var known := approvals + ApprovalsRead(items, snaps);
    MoreApprovals(cfg, items, log, approvals, known);
    BoundedParkedOk(cfg, items, log, approvals);
    PollCrashesExactly(cfg, items, reevaluate, snaps, readyIds, now);
    var moved, launched := PollShape(cfg, items, reevaluate, snaps, readyIds, now);
    TransitionedBounded(cfg, items, reevaluate, snaps, now, log, known);
    LaunchedBounded(cfg, moved.items, readyIds, now, log + moved.actions, known);
    assert log + moved.actions + launched.actions == log + (moved.actions + launched.actions);
    QueueBounded(cfg, launched.items, moved.actions + launched.actions, now, log, known);
  }
}
