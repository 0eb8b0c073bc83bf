/**
 * What one poll over all items does: exactly when it crashes, and what it keeps of every item.
 */
module PollFacts {
  import opened OrchestratorTypes
  import opened Lifecycle
  import opened LifecycleFacts
  import opened LifecycleSteps
  import opened Poll

  /** The keys of the source's Map. */
  predicate DistinctIds(items: seq<Item>) {
    forall i, j :: 0 <= i < j < |items| ==> items[i].id != items[j].id
  }

  lemma {:induction false} FindUnique(items: seq<Item>, k: nat)
    requires DistinctIds(items) && k < |items|
    ensures Find(items, items[k].id) == k
  {
    var f := Find(items, items[k].id);
    assert f >= 0 && items[f].id == items[k].id;
  }

  predicate AllParkedOk(items: seq<Item>) {
    forall k :: 0 <= k < |items| ==> ParkedOk(items[k])
  }

  /** Some item from index `i` on runs off the transition table in this poll. */
  predicate ThrowsFrom(cfg: Config, items: seq<Item>, i: nat, snaps: map<Id, Snapshot>, now: int) {
    exists k :: i <= k < |items| && ItemThrows(cfg, items[k], SnapshotOf(snaps, items[k].id), now)
  }

  // ---- One visit --------------------------------------------------------------------------

  /** The item moved to another state and kept everything its bounds speak of. */
  predicate OnlyMoved(it: Item, next: Item) {
    && next == it.(state := next.state, lastTransition := next.lastTransition, session := next.session, pr := next.pr,
                   ci := next.ci, rebase := next.rebase)
    && !next.session.parked && !Flagged(next)
  }

  /** Another item's step leaves an item as it is, or sends it back to the queue before it started. */
  predicate RolledBack(it: Item, next: Item) {
    next == it || (PreSession(it.state) && next.state.Queued? && OnlyMoved(it, next))
  }

  lemma RolledBackThrows(cfg: Config, it: Item, next: Item, snap: Snapshot, now: int)
    requires RolledBack(it, next)
    ensures ItemThrows(cfg, it, snap, now) <==> ItemThrows(cfg, next, snap, now)
    ensures next.id == it.id && (ParkedOk(it) ==> ParkedOk(next))
  {
  }

  predicate OthersRolledBack(items: seq<Item>, i: nat, next: seq<Item>) {
    |next| == |items| && forall k :: 0 <= k < |items| && k != i ==> RolledBack(items[k], next[k])
  }

  lemma NotificationsAreQuiet(items: seq<Item>, id: Id)
    ensures Quiet(NotifyStacked(items, id)) && Quiet(NotifyAllStacked(items, id))
  {
  }

  lemma AffectFacts(cfg: Config, items: seq<Item>, before: State, it: Item, now: int)
    ensures var s := AffectDependents(cfg, items, before, it, now);
      && Quiet(s.actions)
      && forall k :: 0 <= k < |items| ==> s.items[k] == items[k] || s.items[k] == RollBack(items[k], it.id, now)
  {
    NotificationsAreQuiet(items, it.id);
  }

  /** The dependents' side effects never touch the visited item, so its visit is one transitionItem. */
  lemma VisitIsTransition(cfg: Config, items: seq<Item>, i: nat, snaps: map<Id, Snapshot>, now: int)
    requires i < |items| && ParkedOk(items[i])
    ensures var s := VisitItem(cfg, items, i, snaps, now);
      var step := TransitionItem(cfg, items[i], SnapshotOf(snaps, items[i].id), now);
      && (s.Crash? <==> ItemThrows(cfg, items[i], SnapshotOf(snaps, items[i].id), now))
      && (s.Sweep? ==> step.Step? && s.items[i] == step.item && OthersRolledBack(items, i, s.items))
      && (s.Sweep? ==> forall id :: Count(cfg, id, s.actions) == Count(cfg, id, step.actions))
  {
    hide Count, Body, ResolvePendingFeedbackBatch, ItemThrows, ParkedOk, AffectDependents, Quiet;
    var it, snap := items[i], SnapshotOf(snaps, items[i].id);
    ThrowsExactly(cfg, it, snap, now);
    BodyLeaves(cfg, it, snap, now);
    var body := Body(cfg, it, snap, now);
    if body.Step? && !ExternallyMerged(it, snap) {
      var moved := items[i := body.item];
      AffectFacts(cfg, moved, it.state, body.item, now);
      var affected := AffectDependents(cfg, moved, it.state, body.item, now);
      AffectSparesOwn(cfg, moved, i, it.state, now);
      var tail := Tail(affected.items[i], snap, now);
      if tail.Step? {
        forall id ensures Count(cfg, id, body.actions + affected.actions + tail.actions) == Count(cfg, id, body.actions + tail.actions) {
          InsertQuiet(cfg, id, body.actions, affected.actions, tail.actions);
        }
      }
      RollBackFacts(items, i, body.item.id, now);
    }
  }

  lemma AffectSparesOwn(cfg: Config, items: seq<Item>, i: nat, before: State, now: int)
    requires i < |items|
    ensures AffectDependents(cfg, items, before, items[i], now).items[i] == items[i]
  {
  }

  lemma RollBackFacts(items: seq<Item>, i: nat, id: Id, now: int)
    ensures forall k :: 0 <= k < |items| && k != i ==> RolledBack(items[k], RollBack(items[k], id, now))
  {
  }

  lemma InsertQuiet(cfg: Config, id: Id, a: seq<Action>, quiet: seq<Action>, b: seq<Action>)
    requires Quiet(quiet)
    ensures Count(cfg, id, a + quiet + b) == Count(cfg, id, a + b)
  {
    hide Count;
    CountQuiet(cfg, id, quiet);
    CountConcat(cfg, id, a, quiet);
    CountConcat(cfg, id, a + quiet, b);
    CountConcat(cfg, id, a, b);
  }

  /** The loop over the items crashes exactly when some item does, whatever the others do meanwhile. */
  lemma {:induction false} VisitFromCrashes(cfg: Config, items: seq<Item>, i: nat, snaps: map<Id, Snapshot>, now: int)
    requires i <= |items| && AllParkedOk(items)
    ensures var r := VisitFrom(cfg, items, i, snaps, now);
      && (r.Crash? <==> ThrowsFrom(cfg, items, i, snaps, now))
      && (r.Sweep? ==> AllParkedOk(r.items))
    decreases |items| - i
  {
    hide ItemThrows, VisitItem, TransitionItem, Count, Sound, RolledBack, ParkedOk;
    if i < |items| {
      VisitIsTransition(cfg, items, i, snaps, now);
      ThrowsExactly(cfg, items[i], SnapshotOf(snaps, items[i].id), now);
      var s := VisitItem(cfg, items, i, snaps, now);
      if s.Sweep? {
        forall k | 0 <= k < |items| && k != i
          ensures ParkedOk(s.items[k]) && s.items[k].id == items[k].id
          ensures ItemThrows(cfg, items[k], SnapshotOf(snaps, items[k].id), now)
             <==> ItemThrows(cfg, s.items[k], SnapshotOf(snaps, items[k].id), now)
        {
          RolledBackThrows(cfg, items[k], s.items[k], SnapshotOf(snaps, items[k].id), now);
        }
        VisitFromCrashes(cfg, s.items, i + 1, snaps, now);
      }
    }
  }

  // ---- The merges a poll asks for ---------------------------------------------------------

  /** The item from index `i` on that a merge is for is merging, with nothing a human said pending. */
  predicate MergeReady(items: seq<Item>, i: nat, id: Id) {
    exists k :: i <= k < |items| && items[k].id == id && items[k].state.Merging? && FeedbackSettled(items[k])
  }

  /** Every merge has the right admin flag and a ready item, none is doubled, and nothing is launched. */
  predicate Justified(cfg: Config, items: seq<Item>, i: nat, actions: seq<Action>) {
    && (forall j :: 0 <= j < |actions| ==> !actions[j].Launch?)
    && (forall j :: 0 <= j < |actions| && actions[j].Merge? ==>
          actions[j].admin == cfg.mergeStrategy.Bypass? && MergeReady(items, i, actions[j].id))
    && (forall j, k :: 0 <= j < k < |actions| && actions[j].Merge? && actions[k].Merge? ==> actions[j].id != actions[k].id)
  }

  /** The tally of a list is that of its head and that of its tail, none of them negative. */
  lemma CountStep(cfg: Config, id: Id, actions: seq<Action>)
    requires actions != []
    ensures Count(cfg, id, actions) == Add(TallyOf(cfg, id, actions[0]), Count(cfg, id, actions[1..]))
    ensures Count(cfg, id, actions[1..]).foreign >= 0 && Count(cfg, id, actions[1..]).merges >= 0
  {
    hide TallyOf;
    CountNatural(cfg, id, actions[1..]);
  }

  lemma TallyMeans(cfg: Config, id: Id, a: Action)
    ensures var t := TallyOf(cfg, id, a);
      && t.foreign >= 0 && t.merges >= 0
      && (Notable(a) && t.foreign == 0 ==>
            a.id == id && !a.Launch? && (a.Merge? ==> a.admin == cfg.mergeStrategy.Bypass?))
      && (a.Merge? && a.id == id ==> t.merges == 1)
  {
  }

  /** What a tally without foreign actions says of each action. */
  lemma {:induction false} OwnOnly(cfg: Config, id: Id, actions: seq<Action>, j: nat)
    requires Count(cfg, id, actions).foreign == 0 && j < |actions| && Notable(actions[j])
    ensures actions[j].id == id && !actions[j].Launch? && (actions[j].Merge? ==> actions[j].admin == cfg.mergeStrategy.Bypass?)
  {
    hide Count, TallyOf, Notable;
    CountStep(cfg, id, actions);
    TallyMeans(cfg, id, actions[0]);
    if j > 0 {
      OwnOnly(cfg, id, actions[1..], j - 1);
    }
  }

  lemma {:induction false} MergesCounted(cfg: Config, id: Id, actions: seq<Action>, j: nat)
    requires j < |actions| && actions[j].Merge? && actions[j].id == id
    ensures Count(cfg, id, actions).merges > 0
  {
    hide Count, TallyOf;
    CountStep(cfg, id, actions);
    TallyMeans(cfg, id, actions[0]);
    if j > 0 {
      MergesCounted(cfg, id, actions[1..], j - 1);
    }
  }

  lemma {:induction false} TwoMergesCounted(cfg: Config, id: Id, actions: seq<Action>, j: nat, k: nat)
    requires j < k < |actions| && actions[j].Merge? && actions[k].Merge? && actions[j].id == id == actions[k].id
    ensures Count(cfg, id, actions).merges > 1
  {
    hide Count, TallyOf;
    CountStep(cfg, id, actions);
    TallyMeans(cfg, id, actions[0]);
    if j > 0 {
      TwoMergesCounted(cfg, id, actions[1..], j - 1, k - 1);
    } else {
      MergesCounted(cfg, id, actions[1..], k - 1);
    }
  }

  /** The merges of a settled step are justified by its own item. */
  lemma SettledJustified(cfg: Config, it: Item, step: Step, next: seq<Item>, i: nat)
    requires i < |next| && step.Step? && Sound(cfg, it, step) && next[i] == step.item
    ensures Justified(cfg, next, i, step.actions)
    ensures forall j :: 0 <= j < |step.actions| && step.actions[j].Merge? ==> step.actions[j].id == it.id
  {
    hide Count, FeedbackSettled;
    var id, actions := it.id, step.actions;
    forall j | 0 <= j < |actions| && Notable(actions[j])
      ensures actions[j].id == id && !actions[j].Launch?
      ensures actions[j].Merge? ==> actions[j].admin == cfg.mergeStrategy.Bypass? && Count(cfg, id, actions).merges > 0
    {
      OwnOnly(cfg, id, actions, j);
      if actions[j].Merge? {
        MergesCounted(cfg, id, actions, j);
      }
    }
    forall j, k | 0 <= j < k < |actions| && actions[j].Merge? && actions[k].Merge? ensures false {
      assert Notable(actions[j]) && Notable(actions[k]);
      TwoMergesCounted(cfg, id, actions, j, k);
    }
  }

  /** One visit: its merges are justified by the item it visited. */
  lemma VisitJustified(cfg: Config, items: seq<Item>, i: nat, snaps: map<Id, Snapshot>, now: int)
    requires i < |items| && AllParkedOk(items) && VisitItem(cfg, items, i, snaps, now).Sweep?
    ensures var s := VisitItem(cfg, items, i, snaps, now);
      && Justified(cfg, s.items, i, s.actions) && s.items[i].id == items[i].id
      && (forall j :: 0 <= j < |s.actions| && s.actions[j].Merge? ==> s.actions[j].id == items[i].id)
  {
    hide VisitItem, Count, ItemThrows, TransitionItem, FeedbackSettled, Justified;
    VisitIsTransition(cfg, items, i, snaps, now);
    ThrowsExactly(cfg, items[i], SnapshotOf(snaps, items[i].id), now);
    var s := VisitItem(cfg, items, i, snaps, now);
    SettledJustified(cfg, items[i], Step(s.items[i], s.actions), s.items, i);
  }

  predicate SameIds(items: seq<Item>, next: seq<Item>) {
    |next| == |items| && forall k :: 0 <= k < |items| ==> next[k].id == items[k].id
  }

  predicate AllKeepPayload(cfg: Config, items: seq<Item>, next: seq<Item>) {
    |next| == |items| && forall k :: 0 <= k < |items| ==> KeepsPayload(cfg, items[k], next[k])
  }

  /** A slot is kept or taken by a repair pull request, terminal items stay, and payloads are kept. */
  predicate Evolves(cfg: Config, it: Item, next: Item) {
    && (Active(next.state) ==> Active(it.state) || it.state.FixingForward?)
    && (Terminal(it.state) ==> next.state == it.state)
    && KeepsPayload(cfg, it, next)
  }

  predicate AllEvolve(cfg: Config, items: seq<Item>, next: seq<Item>) {
    |next| == |items| && forall k :: 0 <= k < |items| ==> Evolves(cfg, items[k], next[k])
  }

  /** Later visits leave earlier items alone, but for rolling back those that have not started. */
  lemma {:induction false} VisitFromFrame(cfg: Config, items: seq<Item>, i: nat, snaps: map<Id, Snapshot>, now: int)
    requires i <= |items| && AllParkedOk(items) && VisitFrom(cfg, items, i, snaps, now).Sweep?
    ensures var r := VisitFrom(cfg, items, i, snaps, now);
      && SameIds(items, r.items) && (forall k :: 0 <= k < i ==> RolledBack(items[k], r.items[k]))
      && AllEvolve(cfg, items, r.items)
    decreases |items| - i
  {
    hide ItemThrows, VisitItem, TransitionItem, Count, FeedbackSettled;
    if i < |items| {
      VisitIsTransition(cfg, items, i, snaps, now);
      ThrowsExactly(cfg, items[i], SnapshotOf(snaps, items[i].id), now);
      var s := VisitItem(cfg, items, i, snaps, now);
      assert AllParkedOk(s.items);
      VisitFromFrame(cfg, s.items, i + 1, snaps, now);
    }
  }

  /** The merges of one visit and those of the later visits are all justified at the end. */
  lemma JoinJustified(cfg: Config, items: seq<Item>, i: nat, a: seq<Action>, next: seq<Item>, b: seq<Action>)
    requires i < |items| && SameIds(items, next) && DistinctIds(items) && RolledBack(items[i], next[i])
    requires Justified(cfg, items, i, a) && Justified(cfg, next, i + 1, b)
    requires forall j :: 0 <= j < |a| && a[j].Merge? ==> a[j].id == items[i].id
    ensures Justified(cfg, next, i, a + b)
  {
    hide FeedbackSettled;
    forall j | 0 <= j < |a + b| && (a + b)[j].Merge?
      ensures (a + b)[j].admin == cfg.mergeStrategy.Bypass? && MergeReady(next, i, (a + b)[j].id)
    {
      if j < |a| {
        var k :| i <= k < |items| && items[k].id == a[j].id && items[k].state.Merging? && FeedbackSettled(items[k]);
        assert k == i;
      } else {
        assert (a + b)[j] == b[j - |a|];
      }
    }
    forall j, k | 0 <= j < k < |a + b| && (a + b)[j].Merge? && (a + b)[k].Merge? ensures (a + b)[j].id != (a + b)[k].id {
      if j < |a| <= k {
        assert MergeReady(next, i + 1, b[k - |a|].id);
      }
    }
  }

  lemma NothingJustified(cfg: Config, items: seq<Item>, i: nat)
    ensures Justified(cfg, items, i, []) && FromReviewPending(items, [])
  {
  }

  lemma {:induction false} VisitFromJustified(cfg: Config, items: seq<Item>, i: nat, snaps: map<Id, Snapshot>, now: int)
    requires i <= |items| && DistinctIds(items) && AllParkedOk(items) && VisitFrom(cfg, items, i, snaps, now).Sweep?
    ensures var r := VisitFrom(cfg, items, i, snaps, now); Justified(cfg, r.items, i, r.actions)
    decreases |items| - i
  {
    hide ItemThrows, VisitItem, TransitionItem, Count, Justified, Sound;
    if i == |items| {
      NothingJustified(cfg, items, i);
    } else {
      VisitIsTransition(cfg, items, i, snaps, now);
      ThrowsExactly(cfg, items[i], SnapshotOf(snaps, items[i].id), now);
      VisitJustified(cfg, items, i, snaps, now);
      var s := VisitItem(cfg, items, i, snaps, now);
      assert AllParkedOk(s.items) && SameIds(items, s.items);
      VisitFromFrame(cfg, s.items, i + 1, snaps, now);
      VisitFromJustified(cfg, s.items, i + 1, snaps, now);
      var rest := VisitFrom(cfg, s.items, i + 1, snaps, now);
      JoinJustified(cfg, s.items, i, s.actions, rest.items, rest.actions);
    }
  }

  // ---- Merge re-evaluation ----------------------------------------------------------------

  lemma ReevaluateKeeps(cfg: Config, it: Item, snap: Snapshot, now: int)
    requires ParkedOk(it)
    ensures Keeps(cfg, it, Reevaluate(cfg, it, snap, now))
    ensures !it.state.ReviewPending? ==> Reevaluate(cfg, it, snap, now) == Step(it, [])
  {
    hide Count, EvaluateMerge;
    if it.state.ReviewPending? {
      EvaluateMergeFacts(cfg, it, snap, now);
    }
    QuietKeeps(cfg, it, Step(it, []));
  }

  /** Every merge among some actions is for an item that was review-pending. */
  predicate FromReviewPending(items: seq<Item>, actions: seq<Action>) {
    forall j :: 0 <= j < |actions| && actions[j].Merge? ==>
      exists k :: 0 <= k < |items| && items[k].id == actions[j].id && items[k].state.ReviewPending?
  }

  lemma ReevaluateJustified(cfg: Config, items: seq<Item>, i: nat, snaps: map<Id, Snapshot>, now: int)
    requires i < |items| && ParkedOk(items[i])
    ensures var step := Reevaluate(cfg, items[i], SnapshotOf(snaps, items[i].id), now);
      && step.Step? && step.item.id == items[i].id && ParkedOk(step.item)
      && Justified(cfg, items[i := step.item], i, step.actions)
      && FromReviewPending(items, step.actions)
      && (forall j :: 0 <= j < |step.actions| && step.actions[j].Merge? ==> step.actions[j].id == items[i].id)
  {
    hide Count, Reevaluate, FeedbackSettled;
    var id := items[i].id;
    var step := Reevaluate(cfg, items[i], SnapshotOf(snaps, id), now);
    ReevaluateKeeps(cfg, items[i], SnapshotOf(snaps, id), now);
    SettledJustified(cfg, items[i], step, items[i := step.item], i);
    if !items[i].state.ReviewPending? {
      assert step.actions == [];
    }
  }

  lemma {:induction false} ReevaluateFromFacts(cfg: Config, items: seq<Item>, i: nat, snaps: map<Id, Snapshot>, now: int)
    requires i <= |items| && DistinctIds(items) && AllParkedOk(items)
    ensures var r := ReevaluateFrom(cfg, items, i, snaps, now);
      && r.Sweep? && AllParkedOk(r.items) && SameIds(items, r.items)
      && Justified(cfg, r.items, i, r.actions) && FromReviewPending(items, r.actions)
      && (forall k :: 0 <= k < |items| && (k < i || !items[k].state.ReviewPending?) ==> r.items[k] == items[k])
      && (forall k :: 0 <= k < |items| ==> (Active(r.items[k].state) ==> Active(items[k].state)) && KeepsPayload(cfg, items[k], r.items[k]))
    decreases |items| - i
  {
    hide Reevaluate, Justified, FromReviewPending, ParkedOk, Active, Count;
    if i == |items| {
      NothingJustified(cfg, items, i);
    } else {
      ReevaluateJustified(cfg, items, i, snaps, now);
      ReevaluateKeeps(cfg, items[i], SnapshotOf(snaps, items[i].id), now);
      var step := Reevaluate(cfg, items[i], SnapshotOf(snaps, items[i].id), now);
      var next := items[i := step.item];
      ReevaluateFromFacts(cfg, next, i + 1, snaps, now);
      var rest := ReevaluateFrom(cfg, next, i + 1, snaps, now);
      JoinJustified(cfg, next, i, step.actions, rest.items, rest.actions);
      JoinFromReviewPending(cfg, items, i, step.actions, next, rest.items, rest.actions);
    }
  }

  lemma JoinFromReviewPending(cfg: Config, items: seq<Item>, i: nat, a: seq<Action>, next: seq<Item>, last: seq<Item>, b: seq<Action>)
    requires i < |items| && SameIds(items, next) && (forall k :: 0 <= k < |items| && k != i ==> next[k] == items[k])
    requires FromReviewPending(items, a) && FromReviewPending(next, b)
    requires DistinctIds(items) && SameIds(next, last)
    requires Justified(cfg, last, i + 1, b)
    ensures FromReviewPending(items, a + b)
  {
    forall j | 0 <= j < |b| && b[j].Merge? ensures exists k :: i < k < |items| && items[k].id == b[j].id {
      assert MergeReady(last, i + 1, b[j].id);
    }
  }

  // ---- Transitions and re-evaluation together ---------------------------------------------

  lemma JoinReevaluated(cfg: Config, visited: seq<Item>, a: seq<Action>, evaluated: seq<Item>, b: seq<Action>)
    requires SameIds(visited, evaluated) && DistinctIds(visited)
    requires Justified(cfg, visited, 0, a) && Justified(cfg, evaluated, 0, b) && FromReviewPending(visited, b)
    requires forall k :: 0 <= k < |visited| && !visited[k].state.ReviewPending? ==> evaluated[k] == visited[k]
    ensures Justified(cfg, evaluated, 0, a + b)
  {
    hide FeedbackSettled;
    forall j | 0 <= j < |a + b| && (a + b)[j].Merge?
      ensures (a + b)[j].admin == cfg.mergeStrategy.Bypass? && MergeReady(evaluated, 0, (a + b)[j].id)
    {
      if j < |a| {
        var k :| 0 <= k < |visited| && visited[k].id == a[j].id && visited[k].state.Merging? && FeedbackSettled(visited[k]);
        assert evaluated[k] == visited[k];
      } else {
        assert (a + b)[j] == b[j - |a|];
      }
    }
    forall j, k | 0 <= j < k < |a + b| && (a + b)[j].Merge? && (a + b)[k].Merge? ensures (a + b)[j].id != (a + b)[k].id {
      if j < |a| <= k {
        assert MergeReady(visited, 0, a[j].id);
        assert b[k - |a|].Merge?;
      }
    }
  }

  lemma TransitionedFacts(cfg: Config, items: seq<Item>, reevaluate: bool, snaps: map<Id, Snapshot>, now: int)
    requires DistinctIds(items) && AllParkedOk(items)
    ensures var r := Transitioned(cfg, items, reevaluate, snaps, now);
      && (r.Crash? <==> ThrowsFrom(cfg, items, 0, snaps, now))
      && (r.Sweep? ==> AllParkedOk(r.items) && SameIds(items, r.items) && AllEvolve(cfg, items, r.items))
      && (r.Sweep? ==> Justified(cfg, r.items, 0, r.actions))
  {
    hide VisitFrom, ReevaluateFrom, Justified, ItemThrows, FromReviewPending, ParkedOk;
    VisitFromCrashes(cfg, items, 0, snaps, now);
    var visited := VisitFrom(cfg, items, 0, snaps, now);
    if visited.Sweep? {
      VisitFromFrame(cfg, items, 0, snaps, now);
      VisitFromJustified(cfg, items, 0, snaps, now);
      ReevaluateFromFacts(cfg, visited.items, 0, snaps, now);
      var evaluated := ReevaluateFrom(cfg, visited.items, 0, snaps, now);
      JoinReevaluated(cfg, visited.items, visited.actions, evaluated.items, evaluated.actions);
    }
  }
}
