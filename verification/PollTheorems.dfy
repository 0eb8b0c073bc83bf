/**
 * Main results about one poll of the whole orchestrator: exactly when it crashes, how many slots
 * it may fill, and which merges it may ask for.
 */
module PollTheorems {
  import opened OrchestratorTypes
  import opened Lifecycle
  import opened LifecycleFacts
  import opened LifecycleSteps
  import opened Poll
  import opened PollFacts
  import opened PollQueues

  /** What promotion and the launcher do to an item. */
  predicate Started(it: Item, next: Item) {
    || next == it
    || ((it.state.Queued? || it.state.Ready?) && (next.state.Ready? || next.state.Launching?) && OnlyMoved(it, next))
  }

  lemma ReadiedOrLaunched(it: Item, readied: Item, next: Item, now: int)
    requires Readied(it, readied, now)
    requires next == readied || (readied.state.Ready? && next == Enter(readied, Launching, now))
    ensures Started(it, next)
  {
  }

  /** The items after promotion and launch. */
  function Launched(cfg: Config, items: seq<Item>, readyIds: set<Id>, now: int): Sweep {
    LaunchReadyItems(cfg, Promoted(cfg, items, readyIds, now), now)
  }

  lemma LaunchedStarts(cfg: Config, items: seq<Item>, readyIds: set<Id>, now: int)
    ensures var s := Launched(cfg, items, readyIds, now);
      && s.Sweep? && |s.items| == |items|
      && forall k :: 0 <= k < |items| ==> Started(items[k], s.items[k])
  {
    hide Enter, Promoted, LaunchReadyItems;
    var ready := Promoted(cfg, items, readyIds, now);
    PromotedFacts(cfg, items, readyIds, now);
    LaunchReadyExactly(cfg, ready, now);
    var s := LaunchReadyItems(cfg, ready, now);
    forall k | 0 <= k < |items| ensures Started(items[k], s.items[k]) {
      ReadiedOrLaunched(items[k], ready[k], s.items[k], now);
    }
  }

  lemma {:induction false} LaunchesOnly(before: seq<Item>, after: seq<Item>, i: nat)
    requires |before| == |after| && i <= |before|
    ensures forall a :: a in Launches(before, after, i) ==> a.Launch?
    decreases |before| - i
  {
    if i < |before| {
      LaunchesOnly(before, after, i + 1);
    }
  }

  /** The merges of the transitions are still justified when the merge queue sees them. */
  lemma QueueIsMergeable(cfg: Config, items: seq<Item>, actions: seq<Action>, readyIds: set<Id>, now: int)
    requires DistinctIds(items) && Justified(cfg, items, 0, actions)
    ensures var s := Launched(cfg, items, readyIds, now);
      && Mergeable(s.items, actions + s.actions)
      && (forall j :: 0 <= j < |actions + s.actions| && (actions + s.actions)[j].Merge? ==>
            (actions + s.actions)[j].admin == cfg.mergeStrategy.Bypass?)
  {
    hide Launched, FeedbackSettled, ParkedOk;
    var s := Launched(cfg, items, readyIds, now);
    LaunchedStarts(cfg, items, readyIds, now);
    var all := actions + s.actions;
    LaunchedAreLaunches(cfg, items, readyIds, now);
    assert forall j :: |actions| <= j < |all| ==> all[j] in s.actions;
    forall j | 0 <= j < |all| && all[j].Merge? ensures MergeReady(s.items, 0, all[j].id) {
      var k :| 0 <= k < |items| && items[k].id == actions[j].id && items[k].state.Merging? && FeedbackSettled(items[k]);
      assert s.items[k] == items[k];
    }
  }

  lemma LaunchedAreLaunches(cfg: Config, items: seq<Item>, readyIds: set<Id>, now: int)
    ensures forall a :: a in Launched(cfg, items, readyIds, now).actions ==> a.Launch?
  {
    hide Promoted, LaunchReadyItems;
    var ready := Promoted(cfg, items, readyIds, now);
    LaunchReadyExactly(cfg, ready, now);
    LaunchesOnly(ready, LaunchReadyItems(cfg, ready, now).items, 0);
  }

  /** The whole poll, once its transitions did not crash: promotion, launch, merge queue. */
  lemma PollShape(cfg: Config, items: seq<Item>, reevaluate: bool, snaps: map<Id, Snapshot>, readyIds: set<Id>, now: int)
    returns (moved: Sweep, launched: Sweep)
    requires DistinctIds(items) && AllParkedOk(items) && !ThrowsFrom(cfg, items, 0, snaps, now)
    ensures moved == Transitioned(cfg, items, reevaluate, snaps, now) && moved.Sweep?
    ensures SameIds(items, moved.items) && AllParkedOk(moved.items) && AllEvolve(cfg, items, moved.items)
    ensures Justified(cfg, moved.items, 0, moved.actions)
    ensures launched == Launched(cfg, moved.items, readyIds, now) && launched.Sweep? && |launched.items| == |items|
    ensures forall k :: 0 <= k < |items| ==> Started(moved.items[k], launched.items[k])
    ensures Mergeable(launched.items, moved.actions + launched.actions)
    ensures ProcessTransitions(cfg, items, reevaluate, snaps, readyIds, now)
         == PrioritizeMergeActions(launched.items, moved.actions + launched.actions, now)
  {
    hide Transitioned, ItemThrows, Justified, Mergeable, ParkedOk, PrioritizeMergeActions, Evolves, LaunchReadyItems, Promoted;
    TransitionedFacts(cfg, items, reevaluate, snaps, now);
    moved := Transitioned(cfg, items, reevaluate, snaps, now);
    LaunchedStarts(cfg, moved.items, readyIds, now);
    launched := Launched(cfg, moved.items, readyIds, now);
    QueueIsMergeable(cfg, moved.items, moved.actions, readyIds, now);
  }

  /** What the merge queue leaves of an item. */
  predicate Deferred(it: Item, next: Item) {
    next == it || (it.state.Merging? && next.state.CiPassed? && OnlyMoved(it, next))
  }

  lemma DeferredFacts(it: Item, ids: seq<Id>, keep: Id, now: int)
    requires it.id in ids ==> it.state.Merging?
    ensures Deferred(it, DeferredItem(it, ids, keep, now))
  {
  }

  /** What the merge queue leaves of every item. */
  lemma QueueLeaves(items: seq<Item>, actions: seq<Action>, now: int)
    requires Mergeable(items, actions)
    ensures var r := PrioritizeMergeActions(items, actions, now);
      && r.Sweep? && |r.items| == |items|
      && forall k :: 0 <= k < |items| ==> Deferred(items[k], r.items[k])
  {
    hide PrioritizeMergeActions, FeedbackSettled, MergesBefore, DeferredItem;
    var first := MergeQueueExactly(items, actions, now);
    var ids := MergeIds(actions);
    if |ids| > 1 {
      forall k | 0 <= k < |items| ensures Deferred(items[k], DeferredItem(items[k], ids, items[first].id, now)) {
        MergeIdsMeans(actions, items[k].id);
        DeferredFacts(items[k], ids, items[first].id, now);
      }
    }
  }

  /**
   * Main result: a poll crashes exactly when some item's transition throws. Nothing that
   * follows (re-evaluation, promotion, stacking, launch, merge queue) can run off the table,
   * and a poll that does not crash leaves sessions parked only where they may be.
   */
  lemma PollCrashesExactly(cfg: Config, items: seq<Item>, reevaluate: bool, snaps: map<Id, Snapshot>, readyIds: set<Id>, now: int)
    requires DistinctIds(items) && AllParkedOk(items)
    ensures var r := ProcessTransitions(cfg, items, reevaluate, snaps, readyIds, now);
      && (r.Crash? <==> ThrowsFrom(cfg, items, 0, snaps, now))
      && (r.Sweep? ==> SameIds(items, r.items) && AllParkedOk(r.items))
  {
    hide Transitioned, ItemThrows, PrioritizeMergeActions, Justified, Mergeable, Launched, Evolves;
    TransitionedFacts(cfg, items, reevaluate, snaps, now);
    if !ThrowsFrom(cfg, items, 0, snaps, now) {
      var moved, launched := PollShape(cfg, items, reevaluate, snaps, readyIds, now);
      QueueLeaves(launched.items, moved.actions + launched.actions, now);
    }
  }

  /** A poll keeps every payload, and no item that is flagged for manual review starts merging. */
  lemma PollKeepsPayloads(cfg: Config, items: seq<Item>, reevaluate: bool, snaps: map<Id, Snapshot>, readyIds: set<Id>, now: int)
    requires DistinctIds(items) && AllParkedOk(items)
    ensures var r := ProcessTransitions(cfg, items, reevaluate, snaps, readyIds, now); r.Sweep? ==> AllKeepPayload(cfg, items, r.items)
  {
    hide Transitioned, ItemThrows, PrioritizeMergeActions, Justified, Mergeable, Launched, ParkedOk;
    PollCrashesExactly(cfg, items, reevaluate, snaps, readyIds, now);
    if !ThrowsFrom(cfg, items, 0, snaps, now) {
      var moved, launched := PollShape(cfg, items, reevaluate, snaps, readyIds, now);
      QueueLeaves(launched.items, moved.actions + launched.actions, now);
    }
  }

  // ---- In-flight bound --------------------------------------------------------------------

  /** The items that came back from the repair of the default branch and hold a slot again. */
  function Reentries(before: seq<Item>, after: seq<Item>): nat
    requires |before| == |after|
  {
    if before == [] then 0
    else
      var last := |before| - 1;
      Reentries(before[..last], after[..last]) + (if before[last].state.FixingForward? && Active(after[last].state) then 1 else 0)
  }

  lemma {:induction false} EvolvingCount(cfg: Config, before: seq<Item>, after: seq<Item>)
    requires AllEvolve(cfg, before, after)
    ensures ActiveCount(after) <= ActiveCount(before) + Reentries(before, after)
  {
    if before != [] {
      var last := |before| - 1;
      EvolvingCount(cfg, before[..last], after[..last]);
      assert Evolves(cfg, before[last], after[last]);
    }
  }

  lemma {:induction false} SameActivity(a: seq<Item>, b: seq<Item>)
    requires |a| == |b| && forall k :: 0 <= k < |a| ==> (Active(a[k].state) <==> Active(b[k].state))
    ensures ActiveCount(a) == ActiveCount(b)
    ensures forall before: seq<Item> :: |before| == |a| ==> Reentries(before, a) == Reentries(before, b)
  {
    if a != [] {
      var last := |a| - 1;
      SameActivity(a[..last], b[..last]);
    }
  }

  /** Promotion takes no slot; only launches do. */
  lemma LaunchedCount(cfg: Config, items: seq<Item>, readyIds: set<Id>, now: int)
    ensures var s := Launched(cfg, items, readyIds, now);
      && s.Sweep? && |s.items| == |items|
      && (s.actions == [] ==> ActiveCount(s.items) == ActiveCount(items))
      && (s.actions == [] ==> forall before: seq<Item> :: |before| == |items| ==> Reentries(before, s.items) == Reentries(before, items))
      && (s.actions != [] ==> ActiveCount(s.items) <= cfg.maxInflight)
  {
    hide Promoted, LaunchReadyItems, Enter;
    var ready := Promoted(cfg, items, readyIds, now);
    PromotedFacts(cfg, items, readyIds, now);
    LaunchReadyExactly(cfg, ready, now);
    forall k | 0 <= k < |items| ensures Active(items[k].state) <==> Active(ready[k].state) {
      EnterState(items[k].(pr := ready[k].pr), Ready, now);
    }
    SameActivity(ready, items);
    var s := LaunchReadyItems(cfg, ready, now);
    if s.actions == [] {
      NothingLaunched(ready, s.items, 0, now);
    }
  }

  lemma {:induction false} NothingLaunched(before: seq<Item>, after: seq<Item>, i: nat, now: int)
    requires |before| == |after| && i <= |before| && Launches(before, after, i) == []
    requires forall k :: 0 <= k < |before| ==>
      after[k] == before[k] || (before[k].state.Ready? && after[k] == Enter(before[k], Launching, now))
    requires forall k :: 0 <= k < i ==> after[k] == before[k]
    ensures after == before
    decreases |before| - i
  {
    hide Enter;
    if i < |before| {
      EnterState(before[i], Launching, now);
      NothingLaunched(before, after, i + 1, now);
    }
  }

  /**
   * Main result: after a poll no more slots are taken than `maxInflight`, or than were taken before
   * together with the repair pull requests that took one without asking.
   */
  lemma InFlightBound(cfg: Config, items: seq<Item>, reevaluate: bool, snaps: map<Id, Snapshot>, readyIds: set<Id>, now: int)
    requires DistinctIds(items) && AllParkedOk(items)
    ensures var r := ProcessTransitions(cfg, items, reevaluate, snaps, readyIds, now);
      r.Sweep? ==>
        && |r.items| == |items|
        && ActiveCount(r.items) <= Max(cfg.maxInflight, ActiveCount(items) + Reentries(items, r.items))
  {
    hide Transitioned, ItemThrows, PrioritizeMergeActions, Justified, Mergeable, Launched, Evolves, ParkedOk, Started, ActiveCount,
         Reentries;
    PollCrashesExactly(cfg, items, reevaluate, snaps, readyIds, now);
    if !ThrowsFrom(cfg, items, 0, snaps, now) {
      var moved, launched := PollShape(cfg, items, reevaluate, snaps, readyIds, now);
      QueueLeaves(launched.items, moved.actions + launched.actions, now);
      var r := ProcessTransitions(cfg, items, reevaluate, snaps, readyIds, now);
      EvolvingCount(cfg, items, moved.items);
      LaunchedCount(cfg, moved.items, readyIds, now);
      SameActivity(r.items, launched.items);
    }
  }

  // ---- What a poll asks for ---------------------------------------------------------------

  /**
   * Main result: a poll asks for at most one merge; it has the admin flag exactly under bypass, and
   * its item is merging with neither a feedback batch nor an undelivered feedback message pending.
   */
  lemma PollAsksForOneMerge(cfg: Config, items: seq<Item>, reevaluate: bool, snaps: map<Id, Snapshot>, readyIds: set<Id>, now: int)
    requires DistinctIds(items) && AllParkedOk(items)
    ensures var r := ProcessTransitions(cfg, items, reevaluate, snaps, readyIds, now);
      r.Sweep? ==>
        && |MergeIds(r.actions)| <= 1
        && forall a :: a in r.actions && a.Merge? ==> a.admin == cfg.mergeStrategy.Bypass? && MergeReady(r.items, 0, a.id)
  {
    hide Transitioned, ItemThrows, PrioritizeMergeActions, Launched, Evolves, ParkedOk, Started, FeedbackSettled, MergesBefore;
    PollCrashesExactly(cfg, items, reevaluate, snaps, readyIds, now);
    if !ThrowsFrom(cfg, items, 0, snaps, now) {
      var moved, launched := PollShape(cfg, items, reevaluate, snaps, readyIds, now);
      QueueIsMergeable(cfg, moved.items, moved.actions, readyIds, now);
      var all := moved.actions + launched.actions;
      var first := MergeQueueExactly(launched.items, all, now);
      var r := PrioritizeMergeActions(launched.items, all, now);
      forall a | a in r.actions && a.Merge? ensures a.admin == cfg.mergeStrategy.Bypass? && MergeReady(r.items, 0, a.id) {
        var j :| 0 <= j < |all| && all[j] == a;
        var k :| 0 <= k < |launched.items| && launched.items[k].id == a.id && launched.items[k].state.Merging? && FeedbackSettled(launched.items[k]);
        assert r.items[k] == launched.items[k];
      }
    }
  }

  /** The launch actions, in order. */
  function LaunchesIn(actions: seq<Action>): seq<Action> {
    if actions == [] then [] else (if actions[0].Launch? then [actions[0]] else []) + LaunchesIn(actions[1..])
  }

  lemma {:induction false} LaunchesInConcat(a: seq<Action>, b: seq<Action>)
    ensures LaunchesIn(a + b) == LaunchesIn(a) + LaunchesIn(b)
  {
    if a == [] {
      assert a + b == b;
    } else {
      var head := if a[0].Launch? then [a[0]] else [];
      assert (a + b)[1..] == a[1..] + b;
      LaunchesInConcat(a[1..], b);
      assert LaunchesIn(a) == head + LaunchesIn(a[1..]);
      assert LaunchesIn(a + b) == head + LaunchesIn(a[1..] + b);
    }
  }

  lemma {:induction false} LaunchesInOthers(actions: seq<Action>)
    ensures LaunchesIn(Others(actions)) == LaunchesIn(actions)
  {
    if actions != [] {
      LaunchesInOthers(actions[1..]);
      var others := Others(actions[1..]);
      assert ([actions[0]] + others)[1..] == others && [] + others == others;
    }
  }

  lemma {:induction false} AllLaunches(actions: seq<Action>)
    requires forall a :: a in actions ==> a.Launch?
    ensures LaunchesIn(actions) == actions
  {
    if actions != [] {
      AllLaunches(actions[1..]);
    }
  }

  lemma {:induction false} NoneLaunches(actions: seq<Action>)
    requires forall j :: 0 <= j < |actions| ==> !actions[j].Launch?
    ensures LaunchesIn(actions) == []
  {
    if actions != [] {
      NoneLaunches(actions[1..]);
    }
  }

  /**
   * Main result: the launches of a poll are, in insertion order, exactly those of the items that
   * went from ready to launching, and there are none while no work is accepted.
   */
  lemma PollLaunchesExactly(cfg: Config, items: seq<Item>, reevaluate: bool, snaps: map<Id, Snapshot>, readyIds: set<Id>, now: int)
    requires DistinctIds(items) && AllParkedOk(items)
    ensures var r := ProcessTransitions(cfg, items, reevaluate, snaps, readyIds, now);
      r.Sweep? ==>
        var ready := Promoted(cfg, Transitioned(cfg, items, reevaluate, snaps, now).items, readyIds, now);
        && SameIds(items, ready) && SameIds(ready, r.items)
        && LaunchesIn(r.actions) == Launches(ready, r.items, 0)
        && (!cfg.acceptingWork ==> LaunchesIn(r.actions) == [])
  {
    hide Transitioned, ItemThrows, PrioritizeMergeActions, Evolves, ParkedOk, Started, Promoted, LaunchFrom, Enter,
         Deferred, Mergeable, Launches, MergeReady, LaunchedItem, LaunchesIn;
    PollCrashesExactly(cfg, items, reevaluate, snaps, readyIds, now);
    if !ThrowsFrom(cfg, items, 0, snaps, now) {
      var moved, launched := PollShape(cfg, items, reevaluate, snaps, readyIds, now);
      var all := moved.actions + launched.actions;
      var r := PrioritizeMergeActions(launched.items, all, now);
      QueueLeaves(launched.items, all, now);
      QueueKeepsLaunches(launched.items, all, now);
      LaunchesInConcat(moved.actions, launched.actions);
      NoneLaunches(moved.actions);
      LaunchedAreLaunches(cfg, moved.items, readyIds, now);
      AllLaunches(launched.actions);
      var ready := Promoted(cfg, moved.items, readyIds, now);
      LaunchReadyExactly(cfg, ready, now);
      LaunchesSame(ready, launched.items, r.items, 0);
      PromotedIds(cfg, moved.items, readyIds, now);
    }
  }

  lemma PromotedIds(cfg: Config, items: seq<Item>, readyIds: set<Id>, now: int)
    ensures SameIds(items, Promoted(cfg, items, readyIds, now))
  {
    hide Promoted;
    PromotedFacts(cfg, items, readyIds, now);
  }

  lemma QueueKeepsLaunches(items: seq<Item>, actions: seq<Action>, now: int)
    requires Mergeable(items, actions)
    ensures var r := PrioritizeMergeActions(items, actions, now);
      r.Sweep? && LaunchesIn(r.actions) == LaunchesIn(actions)
  {
    hide PrioritizeMergeActions, Mergeable, IsFirst, DeferredItem;
    var first := MergeQueueExactly(items, actions, now);
    LaunchesInOthers(actions);
    LaunchesInOthers(PrioritizeMergeActions(items, actions, now).actions);
  }

  lemma {:induction false} LaunchesSame(before: seq<Item>, a: seq<Item>, b: seq<Item>, i: nat)
    requires |before| == |a| == |b| && i <= |a|
    requires forall k :: 0 <= k < |a| ==> Deferred(a[k], b[k])
    ensures Launches(before, a, i) == Launches(before, b, i)
    decreases |a| - i
  {
    if i < |a| {
      LaunchesSame(before, a, b, i + 1);
    }
  }
}
