/**
 * The orchestrator as an object (core/orchestrator.ts): its loops over the tracked items, which are
 * updated in place, compute what module Poll specifies.
 */
module Orchestrator {
  import opened OrchestratorTypes
  import L = Lifecycle
  import P = Poll
  import opened RuntimeSettings
  import opened PollFacts
  import opened TrackedItems

  ghost function ViewsOf(items: seq<TrackedItem>): (views: seq<Item>)
    reads items
    ensures |views| == |items| && forall k :: 0 <= k < |items| ==> views[k] == items[k].View()
  {
    if items == [] then [] else ViewsOf(items[..|items| - 1]) + [items[|items| - 1].View()]
  }

  /** The notice an item gets when the item it is stacked on got stuck. */
  function Pause(other: Item, id: Id): seq<Action> {
    if P.Stacked(other, id) && !P.PreSession(other.state) && other.session.workspace.Workspace? then [RebaseRequest(other.id, id)] else []
  }

  lemma NotifyStackedStep(views: seq<Item>, i: nat, id: Id)
    requires i < |views|
    ensures P.NotifyStacked(views[i..], id) == Pause(views[i], id) + P.NotifyStacked(views[i + 1..], id)
  {
    assert views[i..][1..] == views[i + 1..];
  }

  lemma NotifyNobody(views: seq<Item>, id: Id)
    ensures P.NotifyStacked(views[|views|..], id) == [] && views[0..] == views
  {
  }

  class Orchestrator {
    var config: Config
    var items: seq<TrackedItem>
    var forceReviewPendingReevaluation: bool

    ghost function Views(): seq<Item>
      reads this, items
    {
      ViewsOf(items)
    }

    /** Every tracked item is one object, under its own id. */
    ghost predicate Valid()
      reads this
    {
      && (forall i, j :: 0 <= i < j < |items| ==> items[i] != items[j])
      && (forall i, j :: 0 <= i < j < |items| ==> items[i].id != items[j].id)
    }

    constructor (config: Config)
      ensures Valid() && Views() == [] && this.config == config && !forceReviewPendingReevaluation
    {
      this.config := config;
      items, forceReviewPendingReevaluation := [], false;
    }

    /** addItem, for an id that is not tracked. */
    method AddItem(w: WorkItem, now: int)
      requires Valid() && forall k :: 0 <= k < |items| ==> items[k].id != w.id
      modifies `items
      ensures Valid() && Views() == old(Views()) + [NewItem(w, now)]
    {
      var item := new TrackedItem(w, now);
      items := items + [item];
    }

    /** `items.get(id)`: the position of the item, or -1. */
    method FindItem(id: Id) returns (k: int)
      ensures k == P.Find(Views(), id)
    {
      k := -1;
      var i := 0;
      while i < |items|
        invariant 0 <= i <= |items| && k == P.Find(Views()[..i], id)
      {
        assert Views()[..i + 1][..i] == Views()[..i];
        if k < 0 && items[i].id == id {
          k := i;
        }
        i := i + 1;
      }
      assert Views()[..|items|] == Views();
    }

    // ---- Effects on stacked dependents ----------------------------------------------------

    /** `dependencies.some(...)` over done or merged dependencies. */
    method HasMergedDependency(item: TrackedItem) returns (has: bool)
      ensures has == P.HasMergedDependency(Views(), item.View())
    {
      has := false;
      var i := 0;
      while i < |items|
        invariant 0 <= i <= |items|
        invariant has ==> P.HasMergedDependency(Views(), item.View())
        invariant !has ==> forall k :: 0 <= k < i ==>
          !(Views()[k].id in item.workItem.dependencies && (Views()[k].state.Done? || Views()[k].state.Merged?))
      {
        var dep := items[i];
        assert Views()[i] == dep.View();
        if dep.id in item.workItem.dependencies && (dep.state.Done? || dep.state.Merged?) {
          has := true;
        }
        i := i + 1;
      }
    }

    /** Roll back item `i` when it is stacked on the stuck one and has not started; else pause its worker. */
    method RollBackDependent(i: nat, id: Id, now: int) returns (notice: seq<Action>)
      requires Valid() && i < |items|
      modifies items
      ensures Views() == old(Views())[i := P.RollBack(old(Views())[i], id, now)]
      ensures notice == Pause(old(Views())[i], id)
    {
      hide L.Enter;
      ghost var views := Views();
      var other := items[i];
      notice := [];
      if other.pr.baseBranch == Ref(id) {
        if other.state.Ready? || other.state.Launching? {
          other.RollBack(now);
        } else if other.session.workspace.Workspace? {
          notice := [RebaseRequest(other.id, id)];
        }
      }
      assert Views() == views[i := other.View()];
    }

    /** Roll back or pause the items stacked on one that got stuck. */
    method RollBackDependents(id: Id, now: int) returns (actions: seq<Action>)
      requires Valid()
      modifies items
      ensures Views() == P.RollBackAll(old(Views()), id, now)
      ensures actions == P.NotifyStacked(old(Views()), id)
    {
      hide P.RollBack, ViewsOf, P.NotifyStacked, Pause;
      ghost var start := Views();
      NotifyNobody(start, id);
      actions := [];
      var i := 0;
      while i < |items|
        invariant 0 <= i <= |items|
        invariant forall k :: 0 <= k < i ==> Views()[k] == P.RollBack(start[k], id, now)
        invariant forall k :: i <= k < |items| ==> Views()[k] == start[k]
        invariant actions + P.NotifyStacked(start[i..], id) == P.NotifyStacked(start, id)
      {
        NotifyStackedStep(start, i, id);
        var notice := RollBackDependent(i, id, now);
        actions := actions + notice;
        i := i + 1;
      }
    }

    /** Tell the items stacked on one that recovered. */
    method NotifyDependents(id: Id) returns (actions: seq<Action>)
      ensures actions == P.NotifyAllStacked(Views(), id)
    {
      actions := [];
      var i := 0;
      while i < |items|
        invariant 0 <= i <= |items|
        invariant actions + P.NotifyAllStacked(Views()[i..], id) == P.NotifyAllStacked(Views(), id)
      {
        var other := items[i];
        assert Views()[i..][0] == Views()[i] && Views()[i..][1..] == Views()[i + 1..];
        if other.pr.baseBranch == Ref(id) && other.session.workspace.Workspace? {
          actions := actions + [RebaseRequest(other.id, id)];
        }
        i := i + 1;
      }
    }

    /** The dependency handling of transitionItem after the switch. */
    method AffectDependents(item: TrackedItem, before: State, now: int) returns (actions: seq<Action>)
      requires Valid() && item in items
      modifies items
      ensures var s := P.AffectDependents(config, old(Views()), before, old(item.View()), now);
        s.Sweep? && Views() == s.items && actions == s.actions
    {
      hide P.RollBackAll, P.NotifyStacked, P.NotifyAllStacked, P.HasMergedDependency;
      actions := [];
      if config.enableStacking && item.state.Stuck? && !before.Stuck? {
        actions := RollBackDependents(item.id, now);
      } else if config.enableStacking && before.CiFailed? && item.state.CiPending? {
        var has := HasMergedDependency(item);
        if !has {
          actions := NotifyDependents(item.id);
        }
      }
    }

    // ---- One pass over the items ----------------------------------------------------------

    /** The tracked items and the reply are what the sweep says. */
    ghost predicate Sweeps(s: P.Sweep, reply: Reply)
      reads this, items
    {
      match s
      case Sweep(views, actions) => Views() == views && reply == Acts(actions)
      case Crash => reply.Threw?
    }

    /** transitionItem up to its effects on other items. */
    method TransitionOwn(i: nat, snap: Snapshot, now: int) returns (reply: Reply, intercepted: bool)
      requires Valid() && i < |items|
      modifies items
      ensures !reply.NullReply? && intercepted == L.ExternallyMerged(old(Views())[i], snap)
      ensures var body := L.Body(config, old(Views())[i], snap, now);
        if body.Step? then Views() == old(Views())[i := body.item] && reply == Acts(body.actions) else reply.Threw?
    {
      hide L.Body, L.ExternallyMerged;
      ghost var views := Views();
      reply, intercepted := items[i].TransitionBody(config, snap, now);
      assert Views() == views[i := items[i].View()];
    }

    /** The last statements of transitionItem. */
    method TransitionRest(i: nat, snap: Snapshot, now: int) returns (reply: Reply)
      requires Valid() && i < |items|
      modifies items
      ensures !reply.NullReply?
      ensures var tail := L.Tail(old(Views())[i], snap, now);
        if tail.Step? then Views() == old(Views())[i := tail.item] && reply == Acts(tail.actions) else reply.Threw?
    {
      hide L.Tail;
      ghost var views := Views();
      reply := items[i].TransitionTail(snap, now);
      assert Views() == views[i := items[i].View()];
    }

    /** transitionItem. */
    method TransitionItem(i: nat, snaps: map<Id, Snapshot>, now: int) returns (reply: Reply)
      requires Valid() && i < |items|
      modifies items
      ensures Sweeps(P.VisitItem(config, old(Views()), i, snaps, now), reply)
    {
      hide L.Body, L.Tail, L.ExternallyMerged, P.AffectDependents, ViewsOf;
      var snap := if items[i].id in snaps then snaps[items[i].id] else NoSnapshot();
      var before := items[i].state;
      var body, intercepted := TransitionOwn(i, snap, now);
      if body.Threw? || intercepted {
        return body;
      }
      var affected := AffectDependents(items[i], before, now);
      var tail := TransitionRest(i, snap, now);
      reply := if tail.Threw? then tail else Acts(body.actions + affected + tail.actions);
    }

    /** The first loop of processTransitions. */
    method TransitionAll(snaps: map<Id, Snapshot>, now: int) returns (reply: Reply)
      requires Valid()
      modifies items
      ensures Sweeps(P.VisitFrom(config, old(Views()), 0, snaps, now), reply)
    {
      hide P.VisitItem, ViewsOf;
      ghost var start := Views();
      var actions: seq<Action> := [];
      var i := 0;
      while i < |items|
        invariant 0 <= i <= |items|
        invariant Continues(P.VisitFrom(config, start, 0, snaps, now), actions, P.VisitFrom(config, Views(), i, snaps, now))
      {
        ghost var s := P.VisitItem(config, Views(), i, snaps, now);
        var visited := TransitionItem(i, snaps, now);
        if visited.Threw? {
          return visited;
        }
        actions := actions + visited.actions;
        i := i + 1;
      }
      reply := Acts(actions);
    }

    /** evaluateMerge on item `i`, when it is review-pending and its CI is green. */
    method ReevaluateItem(i: nat, snaps: map<Id, Snapshot>, now: int) returns (reply: Reply)
      requires Valid() && i < |items|
      modifies items
      ensures var step := P.Reevaluate(config, old(Views())[i], P.SnapshotOf(snaps, items[i].id), now);
        if step.Step? then Views() == old(Views())[i := step.item] && reply == Acts(step.actions)
        else !reply.Acts? && (reply.Threw? <==> step.Throw?)
      ensures !reply.NullReply?
    {
      hide L.EvaluateMerge;
      ghost var views := Views();
      var item := items[i];
      var snap := if item.id in snaps then snaps[item.id] else NoSnapshot();
      if item.state.ReviewPending? && snap.ciStatus.Pass? {
        reply := item.EvaluateMerge(config, snap, now);
      } else {
        reply := Acts([]);
      }
      assert Views() == views[i := item.View()];
    }

    /** Re-evaluate the merge of the review-pending items. */
    method ReevaluateAll(snaps: map<Id, Snapshot>, now: int) returns (reply: Reply)
      requires Valid()
      modifies items
      ensures Sweeps(P.ReevaluateFrom(config, old(Views()), 0, snaps, now), reply)
    {
      hide P.Reevaluate, ViewsOf;
      ghost var start := Views();
      var actions: seq<Action> := [];
      var i := 0;
      while i < |items|
        invariant 0 <= i <= |items| && |Views()| == |items|
        invariant Continues(P.ReevaluateFrom(config, start, 0, snaps, now), actions, P.ReevaluateFrom(config, Views(), i, snaps, now))
      {
        var evaluated := ReevaluateItem(i, snaps, now);
        if evaluated.Threw? {
          return evaluated;
        }
        actions := actions + evaluated.actions;
        i := i + 1;
      }
      reply := Acts(actions);
    }

    // ---- Promotion and launch -------------------------------------------------------------

    method PromoteReady(readyIds: set<Id>, now: int)
      requires Valid()
      modifies items
      ensures Views() == P.PromoteAll(old(Views()), readyIds, now)
    {
      hide L.Enter;
      ghost var start := Views();
      var i := 0;
      while i < |items|
        invariant 0 <= i <= |items|
        invariant forall k :: 0 <= k < i ==> items[k].View() == P.Promote(start[k], readyIds, now)
        invariant forall k :: i <= k < |items| ==> items[k].View() == start[k]
      {
        var item := items[i];
        if item.state.Queued? && item.id in readyIds {
          item.EnterState(Ready, now);
        }
        i := i + 1;
      }
    }

    /** canStackLaunch. */
    method CanStackLaunch(item: TrackedItem) returns (base: Ref)
      ensures base == P.CanStackLaunch(config, Views(), item.View())
    {
      hide P.Find;
      base := Absent;
      if !config.enableStacking {
        return;
      }
      var deps := item.workItem.dependencies;
      var i := 0;
      while i < |deps|
        invariant 0 <= i <= |deps|
        invariant P.StackOn(config, Views(), deps[i..], base) == P.StackOn(config, Views(), deps, Absent)
      {
        assert deps[i..][0] == deps[i] && deps[i..][1..] == deps[i + 1..];
        var k := FindItem(deps[i]);
        if k >= 0 {
          var dep := items[k];
          assert Views()[k] == dep.View();
          if dep.state.Done? || (!config.fixForward && dep.state.Merged?) {
          } else if dep.repair.failCount > 0 || !Stackable(dep.state) || base.Ref? {
            return Absent;
          } else {
            base := Ref(dep.id);
          }
        }
        i := i + 1;
      }
    }

    method PromoteStacked(now: int)
      requires Valid()
      modifies items
      ensures Views() == P.StackFrom(config, old(Views()), 0, now)
    {
      hide L.Enter, P.CanStackLaunch;
      ghost var start := Views();
      var i := 0;
      while i < |items|
        invariant 0 <= i <= |items|
        invariant P.StackFrom(config, Views(), i, now) == P.StackFrom(config, start, 0, now)
      {
        ghost var views := Views();
        var item := items[i];
        if item.state.Queued? {
          var base := CanStackLaunch(item);
          if base.Ref? {
            item.pr := item.pr.(baseBranch := base);
            item.EnterState(Ready, now);
          }
        }
        assert Views() == views[i := item.View()];
        assert item.View() == P.StackLaunch(config, views, views[i], now);
        i := i + 1;
      }
    }

    method ActiveItemCount() returns (count: nat)
      ensures count == P.ActiveCount(Views())
    {
      count := 0;
      var i := 0;
      while i < |items|
        invariant 0 <= i <= |items| && count == P.ActiveCount(Views()[..i])
      {
        assert Views()[..i + 1][..i] == Views()[..i];
        if Active(items[i].state) {
          count := count + 1;
        }
        i := i + 1;
      }
      assert Views()[..|items|] == Views();
    }

    /** Launch item `i`. */
    method LaunchItem(i: nat, now: int) returns (action: Action)
      requires Valid() && i < |items|
      modifies items
      ensures Views() == old(Views())[i := L.Enter(old(Views())[i], Launching, now)]
      ensures action == Launch(old(Views())[i].id, old(Views())[i].pr.baseBranch)
    {
      ghost var views := Views();
      var item := items[i];
      action := Launch(item.id, item.pr.baseBranch);
      item.EnterState(Launching, now);
      assert Views() == views[i := item.View()];
    }

    /** The loop of launchReadyItems: launch ready items while slots last. */
    method LaunchUpTo(slots: nat, now: int) returns (actions: seq<Action>)
      requires Valid()
      modifies items
      ensures var s := P.LaunchFrom(old(Views()), 0, slots, now); Views() == s.items && actions == s.actions
    {
      hide L.Enter, P.LaunchFrom, ViewsOf;
      actions := [];
      ghost var start := Views();
      var left, i := slots, 0;
      while i < |items| && left > 0
        invariant 0 <= i <= |items| && 0 <= left
        invariant Continues(P.LaunchFrom(start, 0, slots, now), actions, P.LaunchFrom(Views(), i, left, now))
      {
        LaunchFromStep(Views(), i, left, now);
        if items[i].state.Ready? {
          ghost var rest := P.LaunchFrom(Views()[i := L.Enter(Views()[i], Launching, now)], i + 1, left - 1, now);
          var action := LaunchItem(i, now);
          assert actions + ([action] + rest.actions) == actions + [action] + rest.actions;
          actions := actions + [action];
          left := left - 1;
        }
        i := i + 1;
      }
      LaunchFromEnd(Views(), i, left, now);
    }

    method LaunchReadyItems(now: int) returns (actions: seq<Action>)
      requires Valid()
      modifies items
      ensures var s := P.LaunchReadyItems(config, old(Views()), now); Views() == s.items && actions == s.actions
    {
      hide P.LaunchFrom, P.ActiveCount, ViewsOf;
      actions := [];
      if !config.acceptingWork {
        return;
      }
      var active := ActiveItemCount();
      actions := LaunchUpTo(if active < config.maxInflight then config.maxInflight - active else 0, now);
    }

    // ---- Merge queue ----------------------------------------------------------------------

    /** `dependencies.some(...)` over dependencies that are neither done nor merged. */
    method HasUnmergedDependency(item: TrackedItem) returns (has: bool)
      ensures has == P.HasUnmergedDependency(Views(), item.View())
    {
      has := false;
      var i := 0;
      while i < |items|
        invariant 0 <= i <= |items|
        invariant has ==> P.HasUnmergedDependency(Views(), item.View())
        invariant !has ==> forall k :: 0 <= k < i ==>
          !(Views()[k].id in item.workItem.dependencies && !Views()[k].state.Done? && !Views()[k].state.Merged?)
      {
        var dep := items[i];
        assert Views()[i] == dep.View();
        if dep.id in item.workItem.dependencies && !dep.state.Done? && !dep.state.Merged? {
          has := true;
        }
        i := i + 1;
      }
    }

    /** The comparator of the merge queue. */
    method MergesBefore(a: TrackedItem, b: TrackedItem) returns (before: bool)
      ensures before == P.MergesBefore(Views(), a.View(), b.View())
    {
      hide P.HasUnmergedDependency;
      var aBlocked := HasUnmergedDependency(a);
      var bBlocked := HasUnmergedDependency(b);
      if aBlocked != bBlocked {
        return bBlocked;
      }
      if a.workItem.priority != b.workItem.priority {
        return a.workItem.priority.Rank() < b.workItem.priority.Rank();
      }
      before := a.id < b.id;
    }

    /** Item `i` is a candidate that merges before the best one so far. */
    method IsBetter(ids: seq<Id>, i: nat, first: int) returns (better: bool)
      requires i < |items| && -1 <= first < |items|
      ensures better == (Views()[i].id in ids && (first < 0 || P.MergesBefore(Views(), Views()[i], Views()[first])))
    {
      hide P.MergesBefore;
      better := items[i].id in ids;
      if better && first >= 0 {
        better := MergesBefore(items[i], items[first]);
      }
    }

    /** The head of the sorted candidates, or -1. */
    method FirstToMerge(ids: seq<Id>) returns (first: int)
      ensures first == P.FirstToMerge(Views(), Views(), ids)
    {
      hide P.MergesBefore, ViewsOf;
      first := -1;
      var i := 0;
      while i < |items|
        invariant 0 <= i <= |items| && first == P.FirstToMerge(Views()[..i], Views(), ids)
      {
        assert Views()[..i + 1][..i] == Views()[..i];
        var better := IsBetter(ids, i, first);
        if better {
          first := i;
        }
        i := i + 1;
      }
      assert Views()[..|items|] == Views();
    }

    /** Send item `i` back to ci-passed when its merge is deferred. */
    method DeferItem(i: nat, ids: seq<Id>, keep: Id, now: int) returns (outcome: Outcome)
      requires Valid() && i < |items|
      modifies items
      ensures var move := P.Defer(old(Views())[i], ids, keep, now);
        if move.Moved? then outcome == Entered && Views() == old(Views())[i := move.item] else outcome.Illegal?
    {
      hide L.Transition;
      ghost var views := Views();
      var item := items[i];
      outcome := Entered;
      if item.id in ids && item.id != keep {
        outcome := item.Transition(CiPassed, now);
      }
      assert Views() == views[i := item.View()];
    }

    /** The loop over the deferred merges. */
    method DeferOthers(ids: seq<Id>, keep: Id, now: int) returns (reply: Reply)
      requires Valid()
      modifies items
      ensures Sweeps(P.DeferFrom(old(Views()), 0, ids, keep, now), reply)
    {
      hide P.Defer, ViewsOf;
      ghost var start := Views();
      var i := 0;
      while i < |items|
        invariant 0 <= i <= |items| && |Views()| == |items|
        invariant Continues(P.DeferFrom(start, 0, ids, keep, now), [], P.DeferFrom(Views(), i, ids, keep, now))
      {
        var outcome := DeferItem(i, ids, keep, now);
        if outcome.Illegal? {
          return Threw(outcome.from, outcome.to);
        }
        i := i + 1;
      }
      reply := Acts([]);
    }

    method PrioritizeMergeActions(actions: seq<Action>, now: int) returns (reply: Reply)
      requires Valid()
      modifies items
      ensures Sweeps(P.PrioritizeMergeActions(old(Views()), actions, now), reply)
    {
      hide P.DeferFrom, P.FirstToMerge, ViewsOf;
      var ids := MergeIdsOf(actions);
      if |ids| <= 1 {
        return Acts(actions);
      }
      var first := FirstToMerge(ids);
      if first < 0 {
        return Acts(actions);
      }
      var keep := items[first].id;
      var deferred :- DeferOthers(ids, keep, now);
      var kept := KeepOneMerge(actions, keep);
      reply := Acts(kept);
    }

    // ---- The poll -------------------------------------------------------------------------

    /** The part of processTransitions up to the merge re-evaluation. */
    method TransitionAndReevaluate(snaps: map<Id, Snapshot>, now: int) returns (reply: Reply)
      requires Valid()
      modifies items, `forceReviewPendingReevaluation
      ensures Sweeps(P.Transitioned(config, old(Views()), old(forceReviewPendingReevaluation), snaps, now), reply) && !reply.NullReply?
      ensures reply.Acts? ==> !forceReviewPendingReevaluation
    {
      hide P.VisitFrom, P.ReevaluateFrom, ViewsOf;
      reply :- TransitionAll(snaps, now);
      if forceReviewPendingReevaluation {
        forceReviewPendingReevaluation := false;
        var evaluated :- ReevaluateAll(snaps, now);
        reply := evaluated.After(reply.actions);
      }
    }

    /** The two promotion loops. */
    method PromoteAll(readyIds: set<Id>, now: int)
      requires Valid()
      modifies items
      ensures Views() == P.Promoted(config, old(Views()), readyIds, now)
    {
      hide P.PromoteAll, P.StackFrom, ViewsOf;
      PromoteReady(readyIds, now);
      if config.enableStacking {
        PromoteStacked(now);
      }
    }

    /** processTransitions. */
    method ProcessTransitions(snaps: map<Id, Snapshot>, readyIds: set<Id>, now: int) returns (reply: Reply)
      requires Valid()
      modifies items, `forceReviewPendingReevaluation
      ensures Sweeps(P.ProcessTransitions(config, old(Views()), old(forceReviewPendingReevaluation), snaps, readyIds, now), reply)
      ensures reply.Acts? ==> !forceReviewPendingReevaluation
    {
      hide P.Transitioned, P.Promoted, P.LaunchReadyItems, P.PrioritizeMergeActions, ViewsOf;
      var moved :- TransitionAndReevaluate(snaps, now);
      PromoteAll(readyIds, now);
      var launched := LaunchReadyItems(now);
      reply := PrioritizeMergeActions(moved.actions + launched, now);
    }

    // ---- Runtime settings -----------------------------------------------------------------

    /** setMergeStrategy; bypass needs its own flag. */
    method SetMergeStrategy(strategy: MergeStrategy, bypassEnabled: bool) returns (ok: bool)
      modifies `config, `forceReviewPendingReevaluation
      ensures ok <==> !strategy.Bypass? || bypassEnabled
      ensures config == if ok then old(config).(mergeStrategy := strategy) else old(config)
      ensures forceReviewPendingReevaluation <==> old(forceReviewPendingReevaluation) || (ok && strategy != old(config).mergeStrategy)
    {
      ok := !strategy.Bypass? || bypassEnabled;
      if ok && strategy != config.mergeStrategy {
        config := config.(mergeStrategy := strategy);
        forceReviewPendingReevaluation := true;
      }
    }

    /** setSkipReview. */
    method SetSkipReview(skip: bool)
      requires Valid()
      modifies items, `config
      ensures config == old(config).(skipReview := skip)
      ensures forall k :: 0 <= k < |items| ==> items[k].View() == SkipReviewSet(old(Views())[k], skip)
    {
      ghost var start := Views();
      config := config.(skipReview := skip);
      var i := 0;
      while i < |items|
        invariant 0 <= i <= |items| && config == old(config).(skipReview := skip)
        invariant forall k :: 0 <= k < i ==> items[k].View() == SkipReviewSet(start[k], skip)
        invariant forall k :: i <= k < |items| ==> items[k].View() == start[k]
      {
        SkipReview(items[i], skip);
        i := i + 1;
      }
    }

    /** The body of the two loops of setSkipReview. */
    method SkipReview(item: TrackedItem, skip: bool)
      modifies item`review
      ensures item.View() == SkipReviewSet(old(item.View()), skip)
    {
      var s := item.state;
      if skip {
        if s.Reviewing? || s.ReviewPending? {
          item.review := item.review.(completed := true);
        }
      } else if item.review.completed && item.review.round == 0
        && !(s.Merged? || s.Done? || s.Stuck? || s.Blocked? || s.Queued? || s.Ready? || s.Launching? || s.Implementing?)
      {
        item.review := item.review.(completed := false);
      }
    }
  }

  lemma LaunchFromStep(views: seq<Item>, i: nat, slots: nat, now: int)
    requires i < |views| && slots > 0
    ensures P.LaunchFrom(views, i, slots, now) ==
      if !views[i].state.Ready? then P.LaunchFrom(views, i + 1, slots, now)
      else
        var rest := P.LaunchFrom(views[i := L.Enter(views[i], Launching, now)], i + 1, slots - 1, now);
        P.Sweep(rest.items, [Launch(views[i].id, views[i].pr.baseBranch)] + rest.actions)
  {
    hide L.Enter;
  }

  lemma LaunchFromEnd(views: seq<Item>, i: nat, slots: nat, now: int)
    requires i <= |views| && (i == |views| || slots == 0)
    ensures P.LaunchFrom(views, i, slots, now) == P.Sweep(views, [])
  {
  }

  /** The ids of the merge actions. */
  method MergeIdsOf(actions: seq<Action>) returns (ids: seq<Id>)
    ensures ids == P.MergeIds(actions)
  {
    ids := [];
    var i := 0;
    while i < |actions|
      invariant 0 <= i <= |actions| && ids + P.MergeIds(actions[i..]) == P.MergeIds(actions)
    {
      assert actions[i..][0] == actions[i] && actions[i..][1..] == actions[i + 1..];
      if actions[i].Merge? {
        ids := ids + [actions[i].id];
      }
      i := i + 1;
    }
  }

  /** The last filter of prioritizeMergeActions. */
  method KeepOneMerge(actions: seq<Action>, keep: Id) returns (kept: seq<Action>)
    ensures kept == P.KeepOneMerge(actions, keep)
  {
    kept := [];
    var i := 0;
    while i < |actions|
      invariant 0 <= i <= |actions| && kept + P.KeepOneMerge(actions[i..], keep) == P.KeepOneMerge(actions, keep)
    {
      assert actions[i..][0] == actions[i] && actions[i..][1..] == actions[i + 1..];
      if !actions[i].Merge? || actions[i].id == keep {
        kept := kept + [actions[i]];
      }
      i := i + 1;
    }
  }

  /** A loop that did `actions` and still has `rest` to do does `whole`. */
  ghost predicate Continues(whole: P.Sweep, actions: seq<Action>, rest: P.Sweep) {
    if rest.Crash? then whole.Crash? else whole == P.Sweep(rest.items, actions + rest.actions)
  }
}
