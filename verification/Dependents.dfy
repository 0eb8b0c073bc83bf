/**
 * What the visit of one item does to the items stacked on it: exactly which ones go back to the queue,
 * and whose workers are told to pause or to go on (core/orchestrator.ts).
 */
module Dependents {
  import opened OrchestratorTypes
  import opened Lifecycle
  import opened LifecycleFacts
  import opened LifecycleSteps
  import opened Poll
  import opened PollFacts
  import opened Destinations
  import opened PollRequests

  predicate StackedOn(other: Item, id: Id) {
    other.pr.baseBranch == Ref(id)
  }

  /** It has not started to work yet. */
  predicate Unstarted(other: Item) {
    other.state == Ready || other.state == Launching
  }

  /** Back in the queue, without the branch it was to build on. */
  function Requeued(other: Item, now: int): Item {
    other.(state := Queued, lastTransition := now,
           pr := other.pr.(baseBranch := Absent),
           rebase := other.rebase.(requested := false),
           session := other.session.(parked := false, timeoutDeadline := Undefined, timeoutExtensions := 0),
           ci := other.ci.(pendingSince := Undefined))
  }

  /** A dependency of the item has merged or is done, so its own branch may be behind. */
  predicate DependencyIn(items: seq<Item>, it: Item) {
    exists k :: 0 <= k < |items| && items[k].id in it.workItem.dependencies && (items[k].state == Done || items[k].state == Merged)
  }

  /** The visit got the item stuck. */
  predicate NowStuck(cfg: Config, it: Item, next: Item) {
    cfg.enableStacking && it.state != Stuck && next.state == Stuck
  }

  /** The visit saw failed checks run again. */
  predicate NowResumed(cfg: Config, items: seq<Item>, it: Item, next: Item) {
    cfg.enableStacking && it.state == CiFailed && next.state == CiPending && !DependencyIn(items, it)
  }

  /** The worker of the other item is told to pause, or to rebase and go on. */
  predicate ToldOf(cfg: Config, items: seq<Item>, it: Item, next: Item, other: Item, a: Action) {
    && StackedOn(other, it.id) && other.session.workspace.Workspace? && a == RebaseRequest(other.id, it.id)
    && ((NowStuck(cfg, it, next) && !Unstarted(other)) || NowResumed(cfg, items, it, next))
  }

  lemma RequeuedExactly(other: Item, id: Id, now: int)
    ensures RollBack(other, id, now) == if StackedOn(other, id) && Unstarted(other) then Requeued(other, now) else other
  {
  }

  /** The notices are for the listed items that satisfy the condition, one each. */
  lemma {:induction false} NoticesExactly(items: seq<Item>, id: Id)
    ensures forall a :: a in NotifyStacked(items, id) <==>
      exists j :: 0 <= j < |items| && StackedOn(items[j], id) && !Unstarted(items[j]) && items[j].session.workspace.Workspace?
                  && a == RebaseRequest(items[j].id, id)
    ensures forall a :: a in NotifyAllStacked(items, id) <==>
      exists j :: 0 <= j < |items| && StackedOn(items[j], id) && items[j].session.workspace.Workspace? && a == RebaseRequest(items[j].id, id)
  {
    if items != [] {
      NoticesExactly(items[1..], id);
      assert items == [items[0]] + items[1..];
    }
  }

  /** No action of the list is for the items stacked on another. */
  predicate ToldNobody(actions: seq<Action>) {
    forall a :: a in actions ==> !a.RebaseRequest?
  }

  lemma {:induction false} OwnAsksTellNobody(id: Id, actions: seq<Action>)
    requires !AskedIn(id, actions).foreign
    ensures ToldNobody(actions)
  {
    if actions != [] {
      OwnAsksTellNobody(id, actions[1..]);
    }
  }

  lemma ItemTellsNobody(cfg: Config, it: Item, snap: Snapshot, now: int)
    requires ParkedOk(it) && TransitionItem(cfg, it, snap, now).Step?
    ensures ToldNobody(TransitionItem(cfg, it, snap, now).actions)
  {
    hide TransitionItem, IngestPendingFeedbackBatch, AskedIn, Closes, AsksAgain, ReviewOver, StillNotified, ParksForHuman, CommentsKept;
    PollAsks(cfg, it, snap, now);
    if !MergedOutside(it, snap) {
      OwnAsksTellNobody(it.id, TransitionItem(cfg, it, snap, now).actions);
    }
  }

  /** The handler and the last step agree on whether the item got stuck or waits for CI. */
  lemma TailKeepsFate(it: Item, snap: Snapshot, now: int)
    requires ParkedOk(it) && Tail(it, snap, now).Step?
    ensures var next := Tail(it, snap, now).item;
      && (next.state.Stuck? <==> it.state.Stuck?) && (next.state.CiPending? <==> it.state.CiPending?)
      && (it.state.Stuck? || it.state.CiPending? ==> next.pr == it.pr && next.session.workspace == it.session.workspace)
  {
    hide Tail;
    TailEnds(it, [], snap, now);
    if it.state.Stuck? || it.state.CiPending? {
      TailStandsStill(it, snap, now);
    }
  }

  lemma TailStandsStill(it: Item, snap: Snapshot, now: int)
    requires ParkedOk(it) && (it.state.Stuck? || it.state.CiPending?) && Tail(it, snap, now).Step?
    ensures var next := Tail(it, snap, now).item;
      next.state == it.state && next.pr == it.pr && next.session.workspace == it.session.workspace
  {
  }

  /** What the visit of item `i` makes of the others. */
  predicate OthersAfter(cfg: Config, items: seq<Item>, i: nat, next: seq<Item>, now: int)
    requires i < |items| && |next| == |items|
  {
    forall j :: 0 <= j < |items| && j != i ==>
      next[j] == if NowStuck(cfg, items[i], next[i]) && StackedOn(items[j], items[i].id) && Unstarted(items[j]) then Requeued(items[j], now)
                 else items[j]
  }

  /** Whom the visit of item `i` tells, with the item itself as the visit leaves it. */
  predicate ToldAfter(cfg: Config, items: seq<Item>, i: nat, next: Item, others: seq<Item>, a: Action)
    requires i < |items|
  {
    exists j :: 0 <= j < |others| && ToldOf(cfg, items, items[i], next, others[j], a)
  }

  lemma AffectedExactly(cfg: Config, items: seq<Item>, i: nat, body: Item, now: int)
    requires i < |items| && DistinctIds(items) && body.id == items[i].id && body.workItem == items[i].workItem
    ensures var mid := items[i := body];
      var s := AffectDependents(cfg, mid, items[i].state, body, now);
      && s.items[i] == body && OthersAfter(cfg, items, i, s.items, now)
      && forall a :: a in s.actions <==> ToldAfter(cfg, items, i, body, mid, a)
  {
    hide RollBack, Enter, StackedOn, Unstarted, Requeued;
    var it, mid := items[i], items[i := body];
    NoticesExactly(mid, it.id);
    forall j | 0 <= j < |items| ensures RollBack(mid[j], it.id, now) == if StackedOn(mid[j], it.id) && Unstarted(mid[j]) then Requeued(mid[j], now) else mid[j] {
      RequeuedExactly(mid[j], it.id, now);
    }
    StuckNotUnstarted(body);
    MergedDependency(items, i, body);
    var s := AffectDependents(cfg, mid, it.state, body, now);
    forall a ensures a in s.actions <==> ToldAfter(cfg, items, i, body, mid, a) {
      ToldExactly(cfg, items, i, body, s.actions, a, now);
    }
  }

  lemma ToldExactly(cfg: Config, items: seq<Item>, i: nat, body: Item, actions: seq<Action>, a: Action, now: int)
    requires i < |items| && body.id == items[i].id && body.workItem == items[i].workItem
    requires actions == AffectDependents(cfg, items[i := body], items[i].state, body, now).actions
    ensures a in actions <==> ToldAfter(cfg, items, i, body, items[i := body], a)
  {
    hide StackedOn, Unstarted, RollBackAll, HasMergedDependency, DependencyIn;
    var it, mid := items[i], items[i := body];
    NoticesExactly(mid, it.id);
    MergedDependency(items, i, body);
    if ToldAfter(cfg, items, i, body, mid, a) {
      var j :| 0 <= j < |mid| && ToldOf(cfg, items, it, body, mid[j], a);
    }
    if a in actions {
      var j :| 0 <= j < |mid| && StackedOn(mid[j], it.id) && mid[j].session.workspace.Workspace? && a == RebaseRequest(mid[j].id, it.id)
               && (NowStuck(cfg, it, body) ==> !Unstarted(mid[j]));
      assert ToldOf(cfg, items, it, body, mid[j], a);
    }
  }

  lemma StuckNotUnstarted(it: Item)
    ensures it.state.Stuck? ==> !Unstarted(it)
  {
  }

  lemma MergedDependency(items: seq<Item>, i: nat, body: Item)
    requires i < |items| && body.id == items[i].id
    ensures body.workItem == items[i].workItem && body.state.CiPending? && items[i].state.CiFailed? ==>
      (HasMergedDependency(items[i := body], body) <==> DependencyIn(items, items[i]))
  {
    var mid := items[i := body];
    if body.workItem == items[i].workItem && body.state.CiPending? && items[i].state.CiFailed? {
      if DependencyIn(items, items[i]) {
        var k :| 0 <= k < |items| && items[k].id in items[i].workItem.dependencies && (items[k].state == Done || items[k].state == Merged);
        assert mid[k] == items[k];
      }
      if HasMergedDependency(mid, body) {
        var k :| 0 <= k < |mid| && mid[k].id in body.workItem.dependencies && (mid[k].state.Done? || mid[k].state.Merged?);
        assert mid[k] == items[k];
      }
    }
  }

  lemma BodyIs(cfg: Config, it: Item, snap: Snapshot, now: int)
    requires ParkedOk(it) && Body(cfg, it, snap, now).Step?
    ensures var body := Body(cfg, it, snap, now);
      ParkedOk(body.item) && body.item.id == it.id && body.item.workItem == it.workItem
  {
    hide Body, Count;
    BodyLeaves(cfg, it, snap, now);
  }

  /** Told or not: what counts is whether the item is stuck or waits for CI, and where its session is then. */
  lemma SameFate(cfg: Config, items: seq<Item>, i: nat, body: Item, next: Item, a: Action)
    requires i < |items| && (next.state.Stuck? <==> body.state.Stuck?) && (next.state.CiPending? <==> body.state.CiPending?)
    requires body.id == items[i].id && next.id == items[i].id
    requires body.state.Stuck? || body.state.CiPending? ==> next.pr == body.pr && next.session.workspace == body.session.workspace
    ensures ToldAfter(cfg, items, i, body, items[i := body], a) <==> ToldAfter(cfg, items, i, next, items[i := next], a)
  {
    hide DependencyIn;
    var it, before, after := items[i], items[i := body], items[i := next];
    forall j | 0 <= j < |items|
      ensures ToldOf(cfg, items, it, body, before[j], a) <==> ToldOf(cfg, items, it, next, after[j], a)
    {
      if j == i {
        assert before[j] == body && after[j] == next;
      } else {
        assert before[j] == after[j];
      }
    }
    if ToldAfter(cfg, items, i, body, before, a) {
      var j :| 0 <= j < |before| && ToldOf(cfg, items, it, body, before[j], a);
      assert ToldOf(cfg, items, it, next, after[j], a);
    }
    if ToldAfter(cfg, items, i, next, after, a) {
      var j :| 0 <= j < |after| && ToldOf(cfg, items, it, next, after[j], a);
      assert ToldOf(cfg, items, it, body, before[j], a);
    }
  }

  lemma SameOthers(cfg: Config, items: seq<Item>, i: nat, others: seq<Item>, next: Item, now: int)
    requires i < |items| && |others| == |items| && OthersAfter(cfg, items, i, others, now)
    requires next.state.Stuck? <==> others[i].state.Stuck?
    ensures OthersAfter(cfg, items, i, others[i := next], now)
  {
    hide StackedOn, Unstarted, Requeued;
  }

  /** An item merged by somebody else affects nobody. */
  lemma OutsideAffects(cfg: Config, items: seq<Item>, i: nat, next: Item, now: int)
    requires i < |items| && next.state.Merged?
    ensures OthersAfter(cfg, items, i, items[i := next], now)
  {
    hide StackedOn, Unstarted, Requeued;
  }

  lemma OutsideTells(cfg: Config, items: seq<Item>, i: nat, next: Item, a: Action)
    requires i < |items| && next.state.Merged?
    ensures !ToldAfter(cfg, items, i, next, items[i := next], a)
  {
    hide StackedOn, Unstarted, DependencyIn;
  }

  lemma OnlyRequests(cfg: Config, items: seq<Item>, i: nat, next: Item, a: Action)
    requires i < |items|
    ensures ToldAfter(cfg, items, i, next, items[i := next], a) ==> a.RebaseRequest?
  {
    hide DependencyIn, StackedOn, Unstarted;
  }

  lemma SameId(cfg: Config, it: Item, snap: Snapshot, now: int)
    requires ParkedOk(it)
    ensures var step := TransitionItem(cfg, it, snap, now); step.Step? ==> step.item.id == it.id
  {
    hide TransitionItem, Count;
    ThrowsExactly(cfg, it, snap, now);
  }

  lemma StepIs(cfg: Config, it: Item, snap: Snapshot, now: int)
    requires Body(cfg, it, snap, now).Step? && !ExternallyMerged(it, snap) && Tail(Body(cfg, it, snap, now).item, snap, now).Step?
    ensures var body := Body(cfg, it, snap, now);
      var tail := Tail(body.item, snap, now);
      TransitionItem(cfg, it, snap, now) == Step(tail.item, body.actions + tail.actions)
  {
    hide Body, Tail;
  }

  lemma OutsideIs(cfg: Config, it: Item, snap: Snapshot, now: int)
    requires ExternallyMerged(it, snap) && Body(cfg, it, snap, now).Step?
    ensures var body := Body(cfg, it, snap, now); TransitionItem(cfg, it, snap, now) == body && body.item.state.Merged?
  {
  }

  /**
   * Main result: what a visit does to the items stacked on the visited one. When it gets stuck,
   * exactly those that have not started go back to the queue, unstacked, and the workers of the others
   * are told to pause; when failed checks run again they are told to go on, unless a dependency of the
   * item has merged. Nobody else is touched or told.
   */
  lemma DependentsExactly(cfg: Config, items: seq<Item>, i: nat, snaps: map<Id, Snapshot>, now: int)
    requires i < |items| && DistinctIds(items) && ParkedOk(items[i]) && VisitItem(cfg, items, i, snaps, now).Sweep?
    ensures var s := VisitItem(cfg, items, i, snaps, now);
      && OthersAfter(cfg, items, i, s.items, now)
      && forall a :: a in s.actions && a.RebaseRequest? <==> ToldAfter(cfg, items, i, s.items[i], items[i := s.items[i]], a)
  {
    hide AffectDependents, Body, Tail, OthersAfter, ToldAfter, LifecycleSteps.Leaves, DistinctIds, TransitionItem;
    var it, snap := items[i], SnapshotOf(snaps, items[i].id);
    VisitIsTransition(cfg, items, i, snaps, now);
    BodyLeaves(cfg, it, snap, now);
    BodyIs(cfg, it, snap, now);
    ItemTellsNobody(cfg, it, snap, now);
    var body := Body(cfg, it, snap, now);
    var s := VisitItem(cfg, items, i, snaps, now);
    var step := TransitionItem(cfg, it, snap, now);
    if ExternallyMerged(it, snap) {
      OutsideIs(cfg, it, snap, now);
      forall a ensures a in s.actions && a.RebaseRequest? <==> ToldAfter(cfg, items, i, s.items[i], items[i := s.items[i]], a) {
        OutsideTells(cfg, items, i, body.item, a);
      }
      OutsideAffects(cfg, items, i, body.item, now);
    } else {
      AffectedExactly(cfg, items, i, body.item, now);
      var affected := AffectDependents(cfg, items[i := body.item], it.state, body.item, now);
      var tail := Tail(body.item, snap, now);
      TailKeepsFate(body.item, snap, now);
      StepIs(cfg, it, snap, now);
      SameId(cfg, it, snap, now);
      SameOthers(cfg, items, i, affected.items, tail.item, now);
      forall a ensures a in s.actions && a.RebaseRequest? <==> ToldAfter(cfg, items, i, s.items[i], items[i := s.items[i]], a) {
        SameFate(cfg, items, i, body.item, tail.item, a);
        OnlyRequests(cfg, items, i, body.item, a);
        assert a in body.actions + tail.actions <==> a in body.actions || a in tail.actions;
      }
    }
  }
}
