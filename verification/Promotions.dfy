/**
 * Which queued items a poll readies: those whose dependencies are met, and those that can be stacked on
 * their one open dependency (core/orchestrator.ts).
 */
module Promotions {
  import opened OrchestratorTypes
  import opened Lifecycle
  import opened Poll
  import opened PollFacts
  import opened PollQueues

  // ---- What a promotion goes by -----------------------------------------------------------

  /** A tracked item with this id has not merged for good. */
  predicate OpenDependency(cfg: Config, items: seq<Item>, dep: Id) {
    exists k :: 0 <= k < |items| && items[k].id == dep && items[k].state != Done && (cfg.fixForward || items[k].state != Merged)
  }

  /** Its branch is far enough, and its item never broke the default branch. */
  predicate CarriesStack(items: seq<Item>, dep: Id) {
    exists k :: 0 <= k < |items| && items[k].id == dep && items[k].repair.failCount == 0
                && (|| items[k].state == CiPassed || items[k].state == Reviewing || items[k].state == ReviewPending
                    || items[k].state == Merging)
  }

  /** `base` is the only dependency that is still open, named once, and can carry a stack. */
  ghost predicate StacksOn(cfg: Config, items: seq<Item>, deps: seq<Id>, base: Id) {
    && OpenDependency(cfg, items, base) && CarriesStack(items, base)
    && exists p :: OnlyOpen(cfg, items, deps, p) && deps[p] == base
  }

  predicate OnlyOpen(cfg: Config, items: seq<Item>, deps: seq<Id>, p: int) {
    0 <= p < |deps| && forall q :: 0 <= q < |deps| && q != p ==> !OpenDependency(cfg, items, deps[q])
  }

  /** The item is ready now, to be built on `base`. */
  function Readies(it: Item, base: Ref, now: int): Item {
    it.(state := Ready, lastTransition := now,
        pr := it.pr.(baseBranch := base),
        rebase := it.rebase.(requested := false),
        session := it.session.(parked := false, timeoutDeadline := Undefined, timeoutExtensions := 0),
        ci := it.ci.(pendingSince := Undefined))
  }

  // ---- The parts --------------------------------------------------------------------------

  lemma OpenExactly(cfg: Config, items: seq<Item>, dep: Id)
    requires DistinctIds(items)
    ensures OpenDependency(cfg, items, dep) <==> Unfinished(cfg, items, dep)
    ensures OpenDependency(cfg, items, dep) && CarriesStack(items, dep) <==> CanCarry(cfg, items, dep)
  {
    hide DistinctIds;
    var f := Find(items, dep);
    forall k | 0 <= k < |items| && items[k].id == dep ensures k == f {
      FindUnique(items, k);
    }
  }

  lemma StacksExactly(cfg: Config, items: seq<Item>, it: Item, base: Id)
    requires DistinctIds(items)
    ensures CanStackLaunch(cfg, items, it) == Ref(base) <==> cfg.enableStacking && StacksOn(cfg, items, it.workItem.dependencies, base)
  {
    hide DistinctIds, OpenDependency, CarriesStack, Unfinished, CanCarry, CanStackLaunch;
    var deps := it.workItem.dependencies;
    CanStackExactly(cfg, items, it, base);
    forall dep ensures OpenDependency(cfg, items, dep) <==> Unfinished(cfg, items, dep) {
      OpenExactly(cfg, items, dep);
    }
    OpenExactly(cfg, items, base);
    if p :| StacksAt(cfg, items, deps, p) && deps[p] == base {
      assert OnlyOpen(cfg, items, deps, p);
    }
    if StacksOn(cfg, items, deps, base) {
      var p :| OnlyOpen(cfg, items, deps, p) && deps[p] == base;
      assert StacksAt(cfg, items, deps, p);
    }
  }

  lemma PromoteExactly(it: Item, readyIds: set<Id>, now: int)
    ensures Promote(it, readyIds, now) == if it.state == Queued && it.id in readyIds then Readies(it, it.pr.baseBranch, now) else it
  {
  }

  lemma StackExactly(cfg: Config, items: seq<Item>, it: Item, now: int)
    ensures var base := CanStackLaunch(cfg, items, it);
      StackLaunch(cfg, items, it, now) == if it.state == Queued && base.Ref? then Readies(it, base, now) else it
  {
    hide CanStackLaunch;
  }

  /** Some queued items have become ready since. */
  predicate Advanced(before: seq<Item>, after: seq<Item>) {
    |after| == |before| && forall k :: 0 <= k < |before| ==> AdvancedItem(before[k], after[k])
  }

  predicate AdvancedItem(it: Item, next: Item) {
    next == it || (it.state == Queued && next.state == Ready && next.id == it.id && next.repair == it.repair)
  }

  lemma {:induction false} FindSame(before: seq<Item>, after: seq<Item>, id: Id)
    requires |before| == |after| && forall k :: 0 <= k < |before| ==> before[k].id == after[k].id
    ensures Find(before, id) == Find(after, id)
  {
    if before != [] {
      FindSame(before[..|before| - 1], after[..|after| - 1], id);
    }
  }

  /** A promotion changes nothing that the next one goes by. */
  lemma {:induction false} StackOnSame(cfg: Config, before: seq<Item>, after: seq<Item>, deps: seq<Id>, found: Ref)
    requires Advanced(before, after)
    ensures StackOn(cfg, after, deps, found) == StackOn(cfg, before, deps, found)
  {
    if deps != [] {
      FindSame(before, after, deps[0]);
      forall next ensures StackOn(cfg, after, deps[1..], next) == StackOn(cfg, before, deps[1..], next) {
        StackOnSame(cfg, before, after, deps[1..], next);
      }
    }
  }

  lemma StackLaunchSame(cfg: Config, before: seq<Item>, after: seq<Item>, it: Item, now: int)
    requires Advanced(before, after)
    ensures StackLaunch(cfg, after, it, now) == StackLaunch(cfg, before, it, now)
  {
    hide StackOn;
    StackOnSame(cfg, before, after, it.workItem.dependencies, Absent);
  }

  lemma AdvanceOne(cfg: Config, before: seq<Item>, items: seq<Item>, i: nat, now: int)
    requires Advanced(before, items) && i < |items| && items[i] == before[i]
    ensures Advanced(before, items[i := StackLaunch(cfg, before, before[i], now)])
  {
    hide CanStackLaunch;
  }

  lemma {:induction false} StackFromExactly(cfg: Config, before: seq<Item>, items: seq<Item>, i: nat, now: int)
    requires Advanced(before, items) && i <= |items| && forall k :: i <= k < |items| ==> items[k] == before[k]
    ensures var r := StackFrom(cfg, items, i, now);
      && (forall k :: 0 <= k < i ==> r[k] == items[k])
      && (forall k :: i <= k < |items| ==> r[k] == StackLaunch(cfg, before, before[k], now))
    decreases |items| - i
  {
    hide StackLaunch, Advanced;
    if i < |items| {
      StackLaunchSame(cfg, before, items, items[i], now);
      AdvanceOne(cfg, before, items, i, now);
      StackFromExactly(cfg, before, items[i := StackLaunch(cfg, items, items[i], now)], i + 1, now);
    }
  }

  /** What a promotion makes of one item. */
  ghost predicate PromotedAs(cfg: Config, items: seq<Item>, it: Item, next: Item, readyIds: set<Id>, now: int) {
    if it.state != Queued then next == it
    else if it.id in readyIds then next == Readies(it, it.pr.baseBranch, now)
    else
      && (forall base :: cfg.enableStacking && StacksOn(cfg, items, it.workItem.dependencies, base) ==> next == Readies(it, Ref(base), now))
      && ((forall base :: !(cfg.enableStacking && StacksOn(cfg, items, it.workItem.dependencies, base))) ==> next == it)
  }

  lemma StackedAs(cfg: Config, items: seq<Item>, it: Item, readyIds: set<Id>, now: int)
    requires DistinctIds(items)
    ensures PromotedAs(cfg, items, it,
                       if cfg.enableStacking then StackLaunch(cfg, items, Promote(it, readyIds, now), now) else Promote(it, readyIds, now),
                       readyIds, now)
  {
    hide StacksOn, CanStackLaunch, DistinctIds, Promote, StackLaunch, Readies;
    PromoteExactly(it, readyIds, now);
    ReadiesState(it, now);
    StackExactly(cfg, items, Promote(it, readyIds, now), now);
    forall base ensures CanStackLaunch(cfg, items, it) == Ref(base) <==> cfg.enableStacking && StacksOn(cfg, items, it.workItem.dependencies, base) {
      StacksExactly(cfg, items, it, base);
    }
  }

  lemma ReadiesState(it: Item, now: int)
    ensures Readies(it, it.pr.baseBranch, now).state == Ready
  {
  }

  lemma UnblockedAdvance(items: seq<Item>, readyIds: set<Id>, now: int)
    ensures Advanced(items, PromoteAll(items, readyIds, now)) && Advanced(PromoteAll(items, readyIds, now), PromoteAll(items, readyIds, now))
  {
    hide Readies;
    forall k | 0 <= k < |items| ensures AdvancedItem(items[k], Promote(items[k], readyIds, now)) {
      AdvancesOne(items[k], readyIds, now);
    }
  }

  lemma AdvancesOne(it: Item, readyIds: set<Id>, now: int)
    ensures AdvancedItem(it, Promote(it, readyIds, now))
  {
  }

  /**
   * Main result: which queued items become ready in a poll. Exactly those whose dependencies are
   * reported as met, and, with stacking on, those with one open dependency that can carry a stack, on
   * whose branch they are then built; every other item stays as it is.
   */
  lemma PromotedExactly(cfg: Config, items: seq<Item>, readyIds: set<Id>, now: int)
    requires DistinctIds(items)
    ensures var r := Promoted(cfg, items, readyIds, now);
      forall k :: 0 <= k < |items| ==> PromotedAs(cfg, items, items[k], r[k], readyIds, now)
  {
    hide StackFrom, StackLaunch, Promote, PromotedAs, Advanced, DistinctIds;
    var unblocked := PromoteAll(items, readyIds, now);
    UnblockedAdvance(items, readyIds, now);
    StackFromExactly(cfg, unblocked, unblocked, 0, now);
    var r := Promoted(cfg, items, readyIds, now);
    forall k | 0 <= k < |items| ensures PromotedAs(cfg, items, items[k], r[k], readyIds, now) {
      StackedAs(cfg, items, items[k], readyIds, now);
      StackLaunchSame(cfg, items, unblocked, unblocked[k], now);
    }
  }
}
