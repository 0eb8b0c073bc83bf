/**
 * Between a poll and the execution of what it asked for: in which state each action finds its item.
 */
module PollHomes {
  import opened OrchestratorTypes
  import opened Lifecycle
  import opened LifecycleFacts
  import opened LifecycleSteps
  import opened Poll
  import opened PollFacts
  import opened PollQueues
  import opened PollTheorems
  import opened Claims
  import opened ExecutionFacts
  import opened ActionHomes

  /** The requests that are neither launches nor merges and whose execution moves the item. */
  predicate Asking(a: Action) {
    a.NotifyCiFailure? || a.DaemonRebase?
  }

  predicate AsksNothing(actions: seq<Action>) {
    forall a :: a in actions ==> !Asking(a)
  }

  /** The item stays where `a` is at home for the rest of the poll. */
  predicate Settled(cfg: Config, snap: Snapshot, it: Item, a: Action) {
    && AtHome(it, a)
    && (it.state.ReviewPending? ==> FeedbackSettled(it) && (snap.ciStatus.Pass? ==> HeldForHuman(cfg, it)))
  }

  /** The item goes on with its rebase request under way: to a new review or, with reviews skipped, to its merge. */
  predicate Astray(cfg: Config, before: Item, it: Item) {
    && (if cfg.skipReview then it.state.Merging? else it.state.Reviewing?)
    && it.rebase.attempts == before.rebase.attempts && it.session.workspace == before.session.workspace
  }

  /** The requests are for different items. */
  predicate AskedOnce(actions: seq<Action>) {
    forall i, j :: 0 <= i < j < |actions| && Asking(actions[i]) && Asking(actions[j]) ==> actions[i].id != actions[j].id
  }

  predicate StraysAt(cfg: Config, items: seq<Item>, k: nat, snaps: map<Id, Snapshot>, now: int)
    requires k < |items|
  {
    PollStrays(cfg, items[k], SnapshotOf(snaps, items[k].id), now)
  }

  // ---- One item ---------------------------------------------------------------------------

  lemma ItemAsks(cfg: Config, it: Item, snap: Snapshot, now: int)
    requires ParkedOk(it) && TransitionItem(cfg, it, snap, now).Step?
    ensures var step := TransitionItem(cfg, it, snap, now);
      var strays := PollStrays(cfg, it, snap, now);
      && (forall a :: a in step.actions && Asking(a) ==>
            a.id == it.id && if strays then a.DaemonRebase? else Settled(cfg, snap, step.item, a))
      && (strays ==> Astray(cfg, it, step.item) && exists a :: a in step.actions && a.DaemonRebase? && a.id == it.id)
      && AskedOnce(step.actions)
  {
    hide TransitionItem, PollStrays, Seen, FeedbackSettled, HeldForHuman;
    PollInPlace(cfg, it, snap, now);
    SeenStands(it, snap, now);
    var step := TransitionItem(cfg, it, snap, now);
    forall a | a in step.actions && Asking(a)
      ensures a.id == it.id && if PollStrays(cfg, it, snap, now) then a.DaemonRebase? else Settled(cfg, snap, step.item, a)
    {
      var j :| 0 <= j < |step.actions| && step.actions[j] == a;
      assert Moving(step.actions[j]);
      if !PollStrays(cfg, it, snap, now) {
        TransitionKeepsId(cfg, it, snap, now);
      }
    }
    if PollStrays(cfg, it, snap, now) {
      var j :| 0 <= j < |step.actions| && step.actions[j].DaemonRebase? && step.actions[j].id == it.id;
      assert step.actions[j] in step.actions;
      StrayIsNudged(cfg, it, snap, now);
      SeenKeepsAttempts(it, snap, now);
    }
  }

  lemma StrayIsNudged(cfg: Config, it: Item, snap: Snapshot, now: int)
    requires PollStrays(cfg, it, snap, now)
    ensures snap.isMergeable.No?
  {
    hide Seen, InboxWaitStalled;
  }

  lemma TransitionKeepsId(cfg: Config, it: Item, snap: Snapshot, now: int)
    requires ParkedOk(it) && TransitionItem(cfg, it, snap, now).Step?
    ensures TransitionItem(cfg, it, snap, now).item.id == it.id
  {
    hide TransitionItem, ItemThrows, Count;
    ThrowsExactly(cfg, it, snap, now);
  }

  /** The visit of an item asks for what its own transition asks for. */
  lemma VisitAsks(cfg: Config, items: seq<Item>, i: nat, snaps: map<Id, Snapshot>, now: int)
    requires i < |items| && ParkedOk(items[i]) && VisitItem(cfg, items, i, snaps, now).Sweep?
    ensures var s := VisitItem(cfg, items, i, snaps, now);
      var step := TransitionItem(cfg, items[i], SnapshotOf(snaps, items[i].id), now);
      && step.Step? && s.items[i] == step.item && OthersRolledBack(items, i, s.items)
      && (forall a :: Asking(a) ==> (a in s.actions <==> a in step.actions))
      && (AskedOnce(step.actions) ==> AskedOnce(s.actions))
  {
    hide Body, ResolvePendingFeedbackBatch, ItemThrows, ParkedOk, AffectDependents, Count;
    var it, snap := items[i], SnapshotOf(snaps, items[i].id);
    VisitIsTransition(cfg, items, i, snaps, now);
    BodyLeaves(cfg, it, snap, now);
    var body := Body(cfg, it, snap, now);
    if body.Step? && !ExternallyMerged(it, snap) {
      var moved := items[i := body.item];
      AffectAsksNothing(cfg, moved, it.state, body.item, now);
      var affected := AffectDependents(cfg, moved, it.state, body.item, now);
      var tail := Tail(affected.items[i], snap, now);
      if tail.Step? {
        StillAskedOnce(body.actions, affected.actions, tail.actions);
      }
      AffectSparesOwn(cfg, moved, i, it.state, now);
    }
  }

  lemma StillAskedOnce(a: seq<Action>, between: seq<Action>, b: seq<Action>)
    requires AsksNothing(between)
    ensures AskedOnce(a + b) ==> AskedOnce(a + between + b)
  {
    if AskedOnce(a + b) {
      var all := a + between + b;
      forall i, j | 0 <= i < j < |all| && Asking(all[i]) && Asking(all[j]) ensures all[i].id != all[j].id {
        var p, q := if i < |a| then i else i - |between|, if j < |a| then j else j - |between|;
        assert all[i] == (a + b)[p] && all[j] == (a + b)[q];
      }
    }
  }

  lemma AffectAsksNothing(cfg: Config, items: seq<Item>, before: State, it: Item, now: int)
    ensures AsksNothing(AffectDependents(cfg, items, before, it, now).actions)
  {
    NotificationsAskNothing(items, it.id);
  }

  lemma {:induction false} NotificationsAskNothing(items: seq<Item>, id: Id)
    ensures AsksNothing(NotifyStacked(items, id)) && AsksNothing(NotifyAllStacked(items, id))
  {
    if items != [] {
      NotificationsAskNothing(items[1..], id);
    }
  }

  /** Another item's visit changes nothing about straying: an item that may be rolled back has not started. */
  lemma RolledBackStrays(cfg: Config, it: Item, next: Item, snap: Snapshot, now: int)
    requires RolledBack(it, next)
    ensures PollStrays(cfg, it, snap, now) <==> PollStrays(cfg, next, snap, now)
    ensures PollStrays(cfg, it, snap, now) ==> next == it
  {
    hide Seen, StraysFrom;
    SeenStands(it, snap, now);
    SeenStands(next, snap, now);
  }

  // ---- The loop over the items ------------------------------------------------------------

  /** Item `k` is right for the request `a`, or went astray with it. */
  predicate RightFor(cfg: Config, start: seq<Item>, snaps: map<Id, Snapshot>, now: int, items: seq<Item>, k: nat, a: Action)
    requires k < |items| == |start|
  {
    && items[k].id == a.id
    && if StraysAt(cfg, start, k, snaps, now) then a.DaemonRebase? && Astray(cfg, start[k], items[k])
       else Settled(cfg, SnapshotOf(snaps, start[k].id), items[k], a)
  }

  /** Every request is for an item from index `i` on that is right for it, and every stray shows. */
  predicate AllRight(cfg: Config, start: seq<Item>, snaps: map<Id, Snapshot>, now: int, items: seq<Item>, i: nat, actions: seq<Action>)
    requires |items| == |start|
  {
    && (forall a :: a in actions && Asking(a) ==> exists k :: i <= k < |items| && RightFor(cfg, start, snaps, now, items, k, a))
    && (forall k :: i <= k < |items| && StraysAt(cfg, start, k, snaps, now) ==> Shows(cfg, start, items, k, actions))
    && AskedOnce(actions)
  }

  predicate Shows(cfg: Config, start: seq<Item>, items: seq<Item>, k: nat, actions: seq<Action>)
    requires k < |items| == |start|
  {
    Astray(cfg, start[k], items[k]) && exists a :: a in actions && a.DaemonRebase? && a.id == items[k].id
  }

  /** Rolled-back items keep what they are right for: they were right for nothing. */
  lemma RightStays(cfg: Config, start: seq<Item>, snaps: map<Id, Snapshot>, now: int, items: seq<Item>, next: seq<Item>, k: nat, a: Action)
    requires k < |items| == |start| == |next| && Asking(a)
    requires RightFor(cfg, start, snaps, now, items, k, a) && RolledBack(items[k], next[k])
    ensures RightFor(cfg, start, snaps, now, next, k, a)
  {
    hide StraysAt, FeedbackSettled, HeldForHuman;
  }

  /** What was said from the items one visit left holds of the items before it. */
  lemma RightBefore(cfg: Config, items: seq<Item>, mid: seq<Item>, i: nat, snaps: map<Id, Snapshot>, now: int, last: seq<Item>, actions: seq<Action>)
    requires i < |items| == |mid| == |last| && OthersRolledBack(items, i, mid) && SameIds(items, mid)
    requires AllRight(cfg, mid, snaps, now, last, i + 1, actions)
    ensures AllRight(cfg, items, snaps, now, last, i + 1, actions)
  {
    hide PollStrays, Settled, RolledBack, AskedOnce;
    forall k | i < k < |items|
      ensures StraysAt(cfg, items, k, snaps, now) <==> StraysAt(cfg, mid, k, snaps, now)
      ensures StraysAt(cfg, items, k, snaps, now) ==> mid[k] == items[k]
    {
      RolledBackStrays(cfg, items[k], mid[k], SnapshotOf(snaps, items[k].id), now);
    }
    forall a | a in actions && Asking(a) ensures exists k :: i + 1 <= k < |items| && RightFor(cfg, items, snaps, now, last, k, a) {
      var k :| i + 1 <= k < |items| && RightFor(cfg, mid, snaps, now, last, k, a);
      assert RightFor(cfg, items, snaps, now, last, k, a);
    }
  }

  lemma JoinRight(cfg: Config, items: seq<Item>, mid: seq<Item>, i: nat, snaps: map<Id, Snapshot>, now: int, own: seq<Action>, last: seq<Item>, rest: seq<Action>)
    requires i < |items| == |mid| == |last| && RolledBack(mid[i], last[i])
    requires forall a :: a in own && Asking(a) ==> RightFor(cfg, items, snaps, now, mid, i, a)
    requires StraysAt(cfg, items, i, snaps, now) ==> Shows(cfg, items, mid, i, own)
    requires DistinctIds(items) && SameIds(items, mid) && SameIds(items, last) && AskedOnce(own)
    requires AllRight(cfg, items, snaps, now, last, i + 1, rest)
    ensures AllRight(cfg, items, snaps, now, last, i, own + rest)
  {
    hide StraysAt, Settled, RightFor;
    forall a | a in own + rest && Asking(a) ensures exists k :: i <= k < |items| && RightFor(cfg, items, snaps, now, last, k, a) {
      if a in own {
        RightStays(cfg, items, snaps, now, mid, last, i, a);
      } else {
        var k :| i + 1 <= k < |items| && RightFor(cfg, items, snaps, now, last, k, a);
      }
    }
    forall p, q | 0 <= p < q < |own + rest| && Asking((own + rest)[p]) && Asking((own + rest)[q]) ensures (own + rest)[p].id != (own + rest)[q].id {
      if p < |own| <= q {
        RightIds(cfg, items, snaps, now, mid, i, own[p]);
        var a := rest[q - |own|];
        assert a in rest;
        var k :| i + 1 <= k < |items| && RightFor(cfg, items, snaps, now, last, k, a);
        RightIds(cfg, items, snaps, now, last, k, a);
      }
    }
    if StraysAt(cfg, items, i, snaps, now) {
      StrayStays(cfg, items, mid, last, i, own, rest);
    }
  }

  lemma RightIds(cfg: Config, start: seq<Item>, snaps: map<Id, Snapshot>, now: int, items: seq<Item>, k: nat, a: Action)
    requires k < |items| == |start| && RightFor(cfg, start, snaps, now, items, k, a)
    ensures items[k].id == a.id
  {
    hide StraysAt, Settled;
  }

  lemma StrayStays(cfg: Config, start: seq<Item>, mid: seq<Item>, last: seq<Item>, i: nat, own: seq<Action>, rest: seq<Action>)
    requires i < |start| == |mid| == |last| && RolledBack(mid[i], last[i]) && Shows(cfg, start, mid, i, own)
    ensures Shows(cfg, start, last, i, own + rest)
  {
    assert forall a :: a in own ==> a in own + rest;
  }

  lemma {:induction false} VisitFromRight(cfg: Config, items: seq<Item>, i: nat, snaps: map<Id, Snapshot>, now: int)
    requires i <= |items| && DistinctIds(items) && AllParkedOk(items) && VisitFrom(cfg, items, i, snaps, now).Sweep?
    ensures var r := VisitFrom(cfg, items, i, snaps, now); AllRight(cfg, items, snaps, now, r.items, i, r.actions)
    decreases |items| - i
  {
    hide ItemThrows, VisitItem, TransitionItem, Count, Sound, AllRight, PollStrays, Settled;
    if i == |items| {
      NothingRight(cfg, items, snaps, now);
    } else {
      VisitIsTransition(cfg, items, i, snaps, now);
      ThrowsExactly(cfg, items[i], SnapshotOf(snaps, items[i].id), now);
      VisitAsks(cfg, items, i, snaps, now);
      ItemAsks(cfg, items[i], SnapshotOf(snaps, items[i].id), now);
      TransitionKeepsId(cfg, items[i], SnapshotOf(snaps, items[i].id), now);
      var s := VisitItem(cfg, items, i, snaps, now);
      assert AllParkedOk(s.items) && SameIds(items, s.items);
      VisitFromFrame(cfg, s.items, i + 1, snaps, now);
      VisitFromRight(cfg, s.items, i + 1, snaps, now);
      var rest := VisitFrom(cfg, s.items, i + 1, snaps, now);
      RightBefore(cfg, items, s.items, i, snaps, now, rest.items, rest.actions);
      JoinRight(cfg, items, s.items, i, snaps, now, s.actions, rest.items, rest.actions);
    }
  }

  lemma NothingRight(cfg: Config, items: seq<Item>, snaps: map<Id, Snapshot>, now: int)
    ensures AllRight(cfg, items, snaps, now, items, |items|, [])
  {
  }

  // ---- Re-evaluation and the queues -------------------------------------------------------

  lemma EvaluateAsksNothing(cfg: Config, it: Item, snap: Snapshot, now: int)
    requires EvaluateMerge(cfg, it, snap, now).Step?
    ensures AsksNothing(EvaluateMerge(cfg, it, snap, now).actions)
  {
    hide TryHandleNoNewInfo, ContinuePendingFeedbackHandoff, ResolvePendingFeedbackBatch, LaunchReviewRound, RecordKept;
    NoNewInfoQuiet(it, snap, now);
    HandoffQuiet(it, snap, now);
    ResolveQuiet(it, snap, now);
    LaunchReviewQuiet(cfg, it.(review := it.review.(completed := it.review.completed || cfg.skipReview)), snap, now);
  }

  /** The re-evaluation leaves an item at home where a request finds it, and never meets a stray. */
  lemma ReevaluateRight(cfg: Config, it: Item, snap: Snapshot, now: int)
    requires ParkedOk(it)
    ensures var step := Reevaluate(cfg, it, snap, now);
      && step.Step? && step.item.id == it.id && AsksNothing(step.actions)
      && (it.state.Reviewing? || it.state.Merging? ==> step.item == it)
      && (forall a :: Asking(a) && Settled(cfg, snap, it, a) ==> AtHome(step.item, a))
  {
    hide EvaluateMerge, FeedbackSettled, Count;
    ReevaluateKeeps(cfg, it, snap, now);
    if it.state.ReviewPending? && snap.ciStatus.Pass? {
      EvaluateAsksNothing(cfg, it, snap, now);
      HeldStays(cfg, it, snap, now);
    }
  }

  lemma HeldStays(cfg: Config, it: Item, snap: Snapshot, now: int)
    requires it.state.ReviewPending?
    ensures HeldForHuman(cfg, it) && FeedbackSettled(it) ==>
      EvaluateMerge(cfg, it, snap, now).Step? && EvaluateMerge(cfg, it, snap, now).item.state.ReviewPending?
  {
    hide ContinuePendingFeedbackHandoff, ResolvePendingFeedbackBatch;
    HandoffQuiet(it, snap, now);
    ResolveQuiet(it, snap, now);
  }

  predicate Reaches(step: Step, next: Item) {
    step.Step? && step.item == next
  }

  lemma {:induction false} ReevaluateFromRight(cfg: Config, items: seq<Item>, i: nat, snaps: map<Id, Snapshot>, now: int)
    requires i <= |items| && AllParkedOk(items) && DistinctIds(items)
    ensures var r := ReevaluateFrom(cfg, items, i, snaps, now);
      && r.Sweep? && SameIds(items, r.items) && AsksNothing(r.actions)
      && (forall k :: 0 <= k < i ==> r.items[k] == items[k])
      && (forall k :: i <= k < |items| ==> Reaches(Reevaluate(cfg, items[k], SnapshotOf(snaps, items[k].id), now), r.items[k]))
    decreases |items| - i
  {
    hide Reevaluate, ParkedOk, AtHome, Settled;
    if i < |items| {
      ReevaluateRight(cfg, items[i], SnapshotOf(snaps, items[i].id), now);
      ReevaluateParked(cfg, items[i], SnapshotOf(snaps, items[i].id), now);
      var step := Reevaluate(cfg, items[i], SnapshotOf(snaps, items[i].id), now);
      ReevaluateFromRight(cfg, items[i := step.item], i + 1, snaps, now);
    }
  }

  lemma ReevaluateParked(cfg: Config, it: Item, snap: Snapshot, now: int)
    requires ParkedOk(it)
    ensures var step := Reevaluate(cfg, it, snap, now); step.Step? && ParkedOk(step.item)
  {
    hide Reevaluate, Count;
    ReevaluateKeeps(cfg, it, snap, now);
  }

  /** An item that a request found right is at home for it, or astray, whatever the rest of the poll does. */
  predicate EndsRight(cfg: Config, start: seq<Item>, snaps: map<Id, Snapshot>, now: int, items: seq<Item>, a: Action)
    requires |items| == |start|
  {
    exists k :: 0 <= k < |items| && items[k].id == a.id && EndsRightAt(cfg, start, snaps, now, items, k, a)
  }

  predicate EndsRightAt(cfg: Config, start: seq<Item>, snaps: map<Id, Snapshot>, now: int, items: seq<Item>, k: nat, a: Action)
    requires k < |items| == |start|
  {
    AtHome(items[k], a) <==> !(StraysAt(cfg, start, k, snaps, now) && a.DaemonRebase?)
  }

  /** Where a stray ends: as it went astray, or with its merge put off. */
  predicate EndsAstray(cfg: Config, before: Item, last: Item) {
    Astray(cfg, before, last) || (cfg.skipReview && last.state.CiPassed?)
  }

  /** Re-evaluation, promotion, launch and merge queue, as far as one item sees them. */
  ghost predicate Passes(cfg: Config, snap: Snapshot, now: int, reevaluate: bool, visited: Item, last: Item) {
    exists moved: Item, launched: Item ::
      && (if reevaluate then Reaches(Reevaluate(cfg, visited, snap, now), moved) else moved == visited)
      && Started(moved, launched) && Deferred(launched, last)
  }

  lemma PassesRight(cfg: Config, start: seq<Item>, k: nat, snaps: map<Id, Snapshot>, now: int, reevaluate: bool, visited: seq<Item>,
                    last: seq<Item>, a: Action)
    requires k < |start| == |visited| == |last| && ParkedOk(visited[k]) && Asking(a)
    requires RightFor(cfg, start, snaps, now, visited, k, a)
    requires Passes(cfg, SnapshotOf(snaps, start[k].id), now, reevaluate, visited[k], last[k])
    ensures last[k].id == a.id && EndsRightAt(cfg, start, snaps, now, last, k, a)
  {
    hide Reevaluate, StraysAt, FeedbackSettled, HeldForHuman;
    var snap := SnapshotOf(snaps, start[k].id);
    ReevaluateRight(cfg, visited[k], snap, now);
    var moved: Item, launched: Item :|
      && (if reevaluate then Reaches(Reevaluate(cfg, visited[k], snap, now), moved) else moved == visited[k])
      && Started(moved, launched) && Deferred(launched, last[k]);
  }

  lemma PassesAstray(cfg: Config, before: Item, snap: Snapshot, now: int, reevaluate: bool, visited: Item, last: Item)
    requires ParkedOk(visited) && Astray(cfg, before, visited) && Passes(cfg, snap, now, reevaluate, visited, last)
    ensures EndsAstray(cfg, before, last)
  {
    hide Reevaluate;
    ReevaluateRight(cfg, visited, snap, now);
  }

  lemma TransitionedPasses(cfg: Config, items: seq<Item>, reevaluate: bool, snaps: map<Id, Snapshot>, readyIds: set<Id>, now: int)
    returns (visited: Sweep)
    requires DistinctIds(items) && AllParkedOk(items) && ProcessTransitions(cfg, items, reevaluate, snaps, readyIds, now).Sweep?
    ensures visited == VisitFrom(cfg, items, 0, snaps, now) && visited.Sweep? && SameIds(items, visited.items) && AllParkedOk(visited.items)
    ensures var r := ProcessTransitions(cfg, items, reevaluate, snaps, readyIds, now);
      && |r.items| == |items|
      && (forall k :: 0 <= k < |items| ==>
            Passes(cfg, SnapshotOf(snaps, items[k].id), now, reevaluate, visited.items[k], r.items[k]))
      && (forall a :: Asking(a) ==> (a in r.actions <==> a in visited.actions))
      && (AskedOnce(visited.actions) ==> AskedOnce(r.actions))
  {
    hide Transitioned, ItemThrows, Justified, Mergeable, ParkedOk, PrioritizeMergeActions, Evolves, LaunchReadyItems, Promoted,
         VisitFrom, ReevaluateFrom, Reevaluate, Started, Deferred, Launched, ThrowsFrom, AskedOnce;
    PollCrashesExactly(cfg, items, reevaluate, snaps, readyIds, now);
    VisitFromCrashes(cfg, items, 0, snaps, now);
    VisitFromFrame(cfg, items, 0, snaps, now);
    visited := VisitFrom(cfg, items, 0, snaps, now);
    var moved, launched := PollShape(cfg, items, reevaluate, snaps, readyIds, now);
    MovedFrom(cfg, items, reevaluate, snaps, now);
    ReevaluateFromRight(cfg, visited.items, 0, snaps, now);
    var all := moved.actions + launched.actions;
    QueueLeaves(launched.items, all, now);
    QueueKeepsAsking(launched.items, all, now);
    LaunchedAreLaunches(cfg, moved.items, readyIds, now);
    AppendAskedOnce(moved.actions, launched.actions);
    if reevaluate {
      AppendAskedOnce(visited.actions, ReevaluateFrom(cfg, visited.items, 0, snaps, now).actions);
    }
    var r := ProcessTransitions(cfg, items, reevaluate, snaps, readyIds, now);
    forall k | 0 <= k < |items| ensures Passes(cfg, SnapshotOf(snaps, items[k].id), now, reevaluate, visited.items[k], r.items[k]) {
      assert Started(moved.items[k], launched.items[k]) && Deferred(launched.items[k], r.items[k]);
    }
  }

  /** The transitions of a poll are the visits, and the re-evaluation when one is due. */
  lemma MovedFrom(cfg: Config, items: seq<Item>, reevaluate: bool, snaps: map<Id, Snapshot>, now: int)
    requires Transitioned(cfg, items, reevaluate, snaps, now).Sweep?
    ensures var visited := VisitFrom(cfg, items, 0, snaps, now);
      && visited.Sweep?
      && var moved := Transitioned(cfg, items, reevaluate, snaps, now);
      if reevaluate then
        var evaluated := ReevaluateFrom(cfg, visited.items, 0, snaps, now);
        evaluated.Sweep? && moved == Sweep(evaluated.items, visited.actions + evaluated.actions)
      else moved == visited
  {
    hide VisitFrom, ReevaluateFrom;
  }

  /** The merges do not matter to who is asked. */
  lemma {:induction false} OthersAskedOnce(actions: seq<Action>)
    ensures AskedOnce(actions) <==> AskedOnce(Others(actions))
    ensures forall a :: a in Others(actions) <==> a in actions && !a.Merge?
  {
    hide AskedOnce;
    if actions != [] {
      var rest := actions[1..];
      OthersAskedOnce(rest);
      HeadAskedOnce(actions[0], rest);
      HeadAskedOnce(actions[0], Others(rest));
      assert actions == [actions[0]] + rest;
      assert [] + Others(rest) == Others(rest);
    }
  }

  lemma HeadAskedOnce(head: Action, rest: seq<Action>)
    ensures AskedOnce([head] + rest) <==> AskedOnce(rest) && (Asking(head) ==> forall a :: a in rest && Asking(a) ==> a.id != head.id)
  {
    var all := [head] + rest;
    assert forall i :: 0 <= i < |rest| ==> all[i + 1] == rest[i];
    if AskedOnce(all) {
      forall i, j | 0 <= i < j < |rest| && Asking(rest[i]) && Asking(rest[j]) ensures rest[i].id != rest[j].id {
        assert all[i + 1].id != all[j + 1].id;
      }
      forall a | a in rest && Asking(a) && Asking(head) ensures a.id != head.id {
        var i :| 0 <= i < |rest| && rest[i] == a;
        assert all[0].id != all[i + 1].id;
      }
    } else if AskedOnce(rest) && (Asking(head) ==> forall a :: a in rest && Asking(a) ==> a.id != head.id) {
      forall i, j | 0 <= i < j < |all| && Asking(all[i]) && Asking(all[j]) ensures all[i].id != all[j].id {
        if i > 0 {
          assert rest[i - 1].id != rest[j - 1].id;
        } else {
          assert all[j] in rest;
        }
      }
    }
  }

  /** Actions that ask nothing around those that do. */
  lemma AppendAskedOnce(a: seq<Action>, b: seq<Action>)
    requires AsksNothing(b)
    ensures AskedOnce(a) ==> AskedOnce(a + b)
  {
  }

  lemma QueueKeepsAsking(items: seq<Item>, actions: seq<Action>, now: int)
    requires Mergeable(items, actions)
    ensures var r := PrioritizeMergeActions(items, actions, now);
      r.Sweep? && (forall a :: Asking(a) ==> (a in r.actions <==> a in actions)) && (AskedOnce(actions) ==> AskedOnce(r.actions))
  {
    hide PrioritizeMergeActions, Mergeable, IsFirst, DeferredItem, AskedOnce;
    var first := MergeQueueExactly(items, actions, now);
    OthersAskedOnce(actions);
    OthersAskedOnce(PrioritizeMergeActions(items, actions, now).actions);
  }

  lemma {:induction false} LaunchIsListed(actions: seq<Action>, a: Action)
    requires a in actions && a.Launch?
    ensures a in LaunchesIn(actions)
  {
    if a != actions[0] {
      LaunchIsListed(actions[1..], a);
    }
  }

  lemma TransitionsFirst(cfg: Config, items: seq<Item>, reevaluate: bool, snaps: map<Id, Snapshot>, readyIds: set<Id>, now: int)
    requires ProcessTransitions(cfg, items, reevaluate, snaps, readyIds, now).Sweep?
    ensures Transitioned(cfg, items, reevaluate, snaps, now).Sweep?
  {
    hide Transitioned, Promoted, PrioritizeMergeActions, LaunchReadyItems;
  }

  lemma LaunchEndsRight(cfg: Config, items: seq<Item>, reevaluate: bool, snaps: map<Id, Snapshot>, readyIds: set<Id>, now: int, a: Action)
    requires DistinctIds(items) && AllParkedOk(items) && ProcessTransitions(cfg, items, reevaluate, snaps, readyIds, now).Sweep?
    requires a in ProcessTransitions(cfg, items, reevaluate, snaps, readyIds, now).actions && a.Launch?
    ensures var r := ProcessTransitions(cfg, items, reevaluate, snaps, readyIds, now);
      |r.items| == |items| && EndsRight(cfg, items, snaps, now, r.items, a)
  {
    hide Transitioned, Promoted, ParkedOk, StraysAt, LaunchesIn, Launches, Find, ProcessTransitions;
    TransitionsFirst(cfg, items, reevaluate, snaps, readyIds, now);
    PollLaunchesExactly(cfg, items, reevaluate, snaps, readyIds, now);
    var r := ProcessTransitions(cfg, items, reevaluate, snaps, readyIds, now);
    var ready := Promoted(cfg, Transitioned(cfg, items, reevaluate, snaps, now).items, readyIds, now);
    LaunchIsListed(r.actions, a);
    LaunchesTarget(ready, r.items, 0);
    var launches := LaunchesIn(r.actions);
    var j :| 0 <= j < |launches| && launches[j] == a;
    var k := Find(r.items, a.id);
    assert IsLaunching(r.items, launches[j].id);
    assert EndsRightAt(cfg, items, snaps, now, r.items, k, a);
  }

  lemma MergeEndsRight(cfg: Config, items: seq<Item>, reevaluate: bool, snaps: map<Id, Snapshot>, readyIds: set<Id>, now: int, a: Action)
    requires DistinctIds(items) && AllParkedOk(items) && ProcessTransitions(cfg, items, reevaluate, snaps, readyIds, now).Sweep?
    requires a in ProcessTransitions(cfg, items, reevaluate, snaps, readyIds, now).actions && a.Merge?
    ensures var r := ProcessTransitions(cfg, items, reevaluate, snaps, readyIds, now);
      |r.items| == |items| && EndsRight(cfg, items, snaps, now, r.items, a)
  {
    hide ProcessTransitions, FeedbackSettled, StraysAt, ParkedOk, ThrowsFrom;
    PollCrashesExactly(cfg, items, reevaluate, snaps, readyIds, now);
    PollAsksForOneMerge(cfg, items, reevaluate, snaps, readyIds, now);
    var r := ProcessTransitions(cfg, items, reevaluate, snaps, readyIds, now);
    var k :| 0 <= k < |r.items| && r.items[k].id == a.id && r.items[k].state.Merging? && FeedbackSettled(r.items[k]);
    assert EndsRightAt(cfg, items, snaps, now, r.items, k, a);
  }

  /**
   * Main result: every launch, merge, CI notification and rebase request of a poll finds its item in
   * the one state from which executing it cannot run off the table, exactly unless it is the rebase
   * request of an item whose stalled reviewer was recovered in the same poll; each such item does
   * ask for one, and the new review runs or, with reviews skipped, the item merges or waits for its
   * turn. No item gets two requests.
   */
  lemma PollAsksAtHome(cfg: Config, items: seq<Item>, reevaluate: bool, snaps: map<Id, Snapshot>, readyIds: set<Id>, now: int)
    requires DistinctIds(items) && AllParkedOk(items) && ProcessTransitions(cfg, items, reevaluate, snaps, readyIds, now).Sweep?
    ensures var r := ProcessTransitions(cfg, items, reevaluate, snaps, readyIds, now);
      && |r.items| == |items|
      && (forall a :: a in r.actions && Moving(a) ==> EndsRight(cfg, items, snaps, now, r.items, a))
      && (forall k :: 0 <= k < |items| && StraysAt(cfg, items, k, snaps, now) ==>
            EndsAstray(cfg, items[k], r.items[k]) && exists a :: a in r.actions && a.DaemonRebase? && a.id == items[k].id)
      && AskedOnce(r.actions)
  {
    hide ProcessTransitions, StraysAt, ParkedOk, EndsRightAt, Passes, RightFor, VisitFrom;
    var visited := TransitionedPasses(cfg, items, reevaluate, snaps, readyIds, now);
    VisitFromRight(cfg, items, 0, snaps, now);
    var r := ProcessTransitions(cfg, items, reevaluate, snaps, readyIds, now);
    forall a | a in r.actions && Moving(a) ensures EndsRight(cfg, items, snaps, now, r.items, a) {
      if a.Launch? {
        LaunchEndsRight(cfg, items, reevaluate, snaps, readyIds, now, a);
      } else if a.Merge? {
        MergeEndsRight(cfg, items, reevaluate, snaps, readyIds, now, a);
      } else {
        var k :| 0 <= k < |items| && RightFor(cfg, items, snaps, now, visited.items, k, a);
        PassesRight(cfg, items, k, snaps, now, reevaluate, visited.items, r.items, a);
      }
    }
    forall k | 0 <= k < |items| && StraysAt(cfg, items, k, snaps, now)
      ensures EndsAstray(cfg, items[k], r.items[k]) && exists a :: a in r.actions && a.DaemonRebase? && a.id == items[k].id
    {
      assert Shows(cfg, items, visited.items, k, visited.actions);
      PassesAstray(cfg, items[k], SnapshotOf(snaps, items[k].id), now, reevaluate, visited.items[k], r.items[k]);
      var a :| a in visited.actions && a.DaemonRebase? && a.id == visited.items[k].id;
      assert Asking(a);
    }
  }
}
