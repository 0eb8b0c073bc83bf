/**
 * The three queues of a poll: promotion onto stacked branches, the slot-limited launcher and the
 * one-at-a-time merge queue. Each is characterised without its loop.
 */
module PollQueues {
  import opened OrchestratorTypes
  import opened Lifecycle
  import opened LifecycleFacts
  import opened Poll
  import opened PollFacts

  // ---- Stacked launches -------------------------------------------------------------------

  /** The dependency is tracked and still has work to do. */
  predicate Unfinished(cfg: Config, items: seq<Item>, dep: Id) {
    var k := Find(items, dep);
    k >= 0 && !Finished(cfg, items[k])
  }

  /** The dependency may carry a stacked branch. */
  predicate CanCarry(cfg: Config, items: seq<Item>, dep: Id) {
    var k := Find(items, dep);
    k >= 0 && !Finished(cfg, items[k]) && Stackable(items[k].state) && items[k].repair.failCount == 0
  }

  /** Position `p` holds the one unfinished dependency, and it can carry a stacked branch. */
  predicate StacksAt(cfg: Config, items: seq<Item>, deps: seq<Id>, p: int) {
    && 0 <= p < |deps|
    && CanCarry(cfg, items, deps[p])
    && forall q :: 0 <= q < |deps| && q != p ==> !Unfinished(cfg, items, deps[q])
  }

  lemma {:induction false} StackOnFound(cfg: Config, items: seq<Item>, deps: seq<Id>, found: Ref)
    requires found.Ref?
    ensures StackOn(cfg, items, deps, found)
         == if forall q :: 0 <= q < |deps| ==> !Unfinished(cfg, items, deps[q]) then found else Absent
  {
    if deps != [] {
      StackOnFound(cfg, items, deps[1..], found);
      assert forall q :: 0 < q < |deps| ==> deps[q] == deps[1..][q - 1];
      assert forall q :: 0 <= q < |deps[1..]| ==> deps[1..][q] == deps[q + 1];
    }
  }

  lemma {:induction false} StackOnOpen(cfg: Config, items: seq<Item>, deps: seq<Id>, base: Id)
    ensures StackOn(cfg, items, deps, Absent) == Ref(base) <==> exists p :: StacksAt(cfg, items, deps, p) && deps[p] == base
  {
    if deps != [] {
      var rest := deps[1..];
      assert forall q :: 0 < q < |deps| ==> deps[q] == rest[q - 1];
      assert forall q :: 0 <= q < |rest| ==> rest[q] == deps[q + 1];
      if !Unfinished(cfg, items, deps[0]) {
        StackOnOpen(cfg, items, rest, base);
        if StackOn(cfg, items, deps, Absent) == Ref(base) {
          var p :| StacksAt(cfg, items, rest, p) && rest[p] == base;
          assert StacksAt(cfg, items, deps, p + 1);
        }
        if p :| StacksAt(cfg, items, deps, p) && deps[p] == base {
          assert StacksAt(cfg, items, rest, p - 1);
        }
      } else {
        StackOnFound(cfg, items, rest, Ref(deps[0]));
        if StackOn(cfg, items, deps, Absent) == Ref(base) {
          assert StacksAt(cfg, items, deps, 0);
        }
      }
    }
  }

  /**
   * Main result: an item stacks on `base` exactly when stacking is on and `base` is its one
   * unfinished dependency, reviewable and never broken the default branch.
   */
  lemma CanStackExactly(cfg: Config, items: seq<Item>, it: Item, base: Id)
    ensures CanStackLaunch(cfg, items, it) == Ref(base) <==>
      cfg.enableStacking && exists p :: StacksAt(cfg, items, it.workItem.dependencies, p) && it.workItem.dependencies[p] == base
  {
    StackOnOpen(cfg, items, it.workItem.dependencies, base);
  }

  /** Promotion changes queued items only, and only into ready ones. */
  predicate Readied(it: Item, next: Item, now: int) {
    next == it || (it.state.Queued? && next == Enter(it.(pr := next.pr), Ready, now))
  }

  lemma {:induction false} StackFromFacts(cfg: Config, items: seq<Item>, i: nat, now: int)
    requires i <= |items|
    ensures var r := StackFrom(cfg, items, i, now);
      && (forall k :: 0 <= k < i ==> r[k] == items[k])
      && (forall k :: i <= k < |items| ==> Readied(items[k], r[k], now))
    decreases |items| - i
  {
    hide CanStackLaunch;
    if i < |items| {
      StackFromFacts(cfg, items[i := StackLaunch(cfg, items, items[i], now)], i + 1, now);
    }
  }

  lemma PromotedFacts(cfg: Config, items: seq<Item>, readyIds: set<Id>, now: int)
    ensures var r := Promoted(cfg, items, readyIds, now);
      forall k :: 0 <= k < |items| ==> Readied(items[k], r[k], now)
  {
    hide StackFrom;
    StackFromFacts(cfg, PromoteAll(items, readyIds, now), 0, now);
  }

  // ---- The launcher -----------------------------------------------------------------------

  /** How many items with index from `i` up to `k` are ready. */
  function ReadyBetween(items: seq<Item>, i: nat, k: nat): nat
    requires k <= |items|
  {
    if k <= i then 0 else ReadyBetween(items, i, k - 1) + (if items[k - 1].state.Ready? then 1 else 0)
  }

  /** Item `k` is among the first `slots` ready items from index `i` on. */
  predicate Fits(items: seq<Item>, i: nat, k: nat, slots: nat)
    requires k < |items|
  {
    i <= k && items[k].state.Ready? && ReadyBetween(items, i, k) < slots
  }

  /** Launch actions for the items that were ready before and are launching after, in insertion order. */
  function Launches(before: seq<Item>, after: seq<Item>, i: nat): seq<Action>
    requires |before| == |after| && i <= |before|
    decreases |before| - i
  {
    if i == |before| then []
    else (if before[i].state.Ready? && after[i].state.Launching? then [Launch(before[i].id, before[i].pr.baseBranch)] else [])
         + Launches(before, after, i + 1)
  }

  lemma {:induction false} ReadyBetweenFirst(items: seq<Item>, next: seq<Item>, i: nat, k: nat)
    requires i < k <= |items| == |next| && forall j :: i < j < |items| ==> next[j] == items[j]
    ensures ReadyBetween(items, i, k) == (if items[i].state.Ready? then 1 else 0) + ReadyBetween(next, i + 1, k)
  {
    if k > i + 1 {
      ReadyBetweenFirst(items, next, i, k - 1);
    }
  }

  lemma {:induction false} LaunchesFrame(a: seq<Item>, b: seq<Item>, after: seq<Item>, i: nat)
    requires |a| == |b| == |after| && i <= |a| && forall k :: i <= k < |a| ==> a[k] == b[k]
    ensures Launches(a, after, i) == Launches(b, after, i)
    decreases |a| - i
  {
    if i < |a| {
      LaunchesFrame(a, b, after, i + 1);
    }
  }

  lemma {:induction false} NoLaunches(items: seq<Item>, i: nat)
    requires i <= |items|
    ensures Launches(items, items, i) == []
    decreases |items| - i
  {
    if i < |items| {
      NoLaunches(items, i + 1);
    }
  }

  lemma {:induction false} ActiveUpdate(items: seq<Item>, i: nat, next: Item)
    requires i < |items|
    ensures ActiveCount(items[i := next])
         == ActiveCount(items) + (if Active(next.state) then 1 else 0) - (if Active(items[i].state) then 1 else 0)
  {
    var last := |items| - 1;
    if i < last {
      ActiveUpdate(items[..last], i, next);
      assert items[i := next][..last] == items[..last][i := next];
    } else {
      assert items[i := next][..last] == items[..last];
    }
  }

  /** The item after the launcher gave out `slots` slots from index `i` on. */
  function LaunchedItem(items: seq<Item>, i: nat, k: nat, slots: nat, now: int): Item
    requires k < |items|
  {
    if Fits(items, i, k, slots) then Enter(items[k], Launching, now) else items[k]
  }

  /** The launcher starts exactly the first `slots` ready items. */
  lemma {:induction false} LaunchFromItems(items: seq<Item>, i: nat, slots: nat, now: int)
    requires i <= |items|
    ensures var s := LaunchFrom(items, i, slots, now);
      forall k :: 0 <= k < |items| ==> s.items[k] == LaunchedItem(items, i, k, slots, now)
    decreases |items| - i
  {
    hide Enter;
    if i < |items| && slots > 0 {
      var ready := items[i].state.Ready?;
      var next := if ready then items[i := Enter(items[i], Launching, now)] else items;
      var left := if ready then slots - 1 else slots;
      LaunchFromItems(next, i + 1, left, now);
      forall k | 0 <= k < |items| ensures k != i ==> LaunchedItem(items, i, k, slots, now) == LaunchedItem(next, i + 1, k, left, now) {
        if k > i {
          ReadyBetweenFirst(items, next, i, k);
        }
      }
    }
  }

  /** It asks for one launch each, and each takes one slot. */
  lemma {:induction false} LaunchFromActions(items: seq<Item>, i: nat, slots: nat, now: int)
    requires i <= |items|
    ensures var s := LaunchFrom(items, i, slots, now);
      && s.actions == Launches(items, s.items, i)
      && |s.actions| <= slots
      && ActiveCount(s.items) == ActiveCount(items) + |s.actions|
      && forall k :: 0 <= k < i ==> s.items[k] == items[k]
    decreases |items| - i
  {
    hide Enter, ActiveCount, Launches;
    if i == |items| || slots == 0 {
      NoLaunches(items, i);
    } else if items[i].state.Ready? {
      var next := items[i := Enter(items[i], Launching, now)];
      TakesSlot(items, i, now);
      LaunchFromActions(next, i + 1, slots - 1, now);
      LaunchesFirst(items, next, LaunchFrom(next, i + 1, slots - 1, now).items, i);
    } else {
      LaunchFromActions(items, i + 1, slots, now);
      LaunchesFirst(items, items, LaunchFrom(items, i + 1, slots, now).items, i);
    }
  }

  lemma TakesSlot(items: seq<Item>, i: nat, now: int)
    requires i < |items| && items[i].state.Ready?
    ensures var next := items[i := Enter(items[i], Launching, now)];
      next[i].state.Launching? && ActiveCount(next) == ActiveCount(items) + 1
  {
    hide Enter, ActiveCount;
    EnterState(items[i], Launching, now);
    ActiveUpdate(items, i, Enter(items[i], Launching, now));
  }

  /** The launches from index `i` on are that of item `i`, if it started, and those behind it. */
  lemma LaunchesFirst(items: seq<Item>, next: seq<Item>, after: seq<Item>, i: nat)
    requires i < |items| == |next| == |after| && next == items[i := next[i]] && after[i] == next[i]
    requires next[i] == items[i] || items[i].state.Ready?
    ensures Launches(items, after, i)
         == (if items[i].state.Ready? && next[i].state.Launching? then [Launch(items[i].id, items[i].pr.baseBranch)] else [])
            + Launches(next, after, i + 1)
  {
    LaunchesFrame(items, next, after, i + 1);
  }

  lemma EnterState(it: Item, to: State, now: int)
    ensures Enter(it, to, now).state == to && Enter(it, to, now).id == it.id
  {
  }

  /**
   * Main result: the launcher starts the first free-slot-many ready items in insertion order, asks
   * for exactly one launch each, and fills at most `maxInflight` slots unless they were overfull.
   */
  lemma LaunchReadyExactly(cfg: Config, items: seq<Item>, now: int)
    ensures var s := LaunchReadyItems(cfg, items, now);
      var slots := if cfg.acceptingWork then AvailableSlots(cfg, items) else 0;
      && (forall k :: 0 <= k < |items| ==> s.items[k] == LaunchedItem(items, 0, k, slots, now))
      && s.actions == Launches(items, s.items, 0)
      && (s.actions == [] ==> ActiveCount(s.items) == ActiveCount(items))
      && (s.actions != [] ==> ActiveCount(s.items) <= cfg.maxInflight)
  {
    hide Enter;
    LaunchFromItems(items, 0, AvailableSlots(cfg, items), now);
    LaunchFromActions(items, 0, AvailableSlots(cfg, items), now);
    NoLaunches(items, 0);
  }

  // ---- The merge queue --------------------------------------------------------------------

  lemma MergesBeforeTransitive(items: seq<Item>, a: Item, b: Item, c: Item)
    requires MergesBefore(items, a, b) && MergesBefore(items, b, c)
    ensures MergesBefore(items, a, c)
  {
    hide HasUnmergedDependency;
  }

  lemma MergesBeforeTotal(items: seq<Item>, a: Item, b: Item)
    requires a.id != b.id
    ensures MergesBefore(items, a, b) <==> !MergesBefore(items, b, a)
  {
    hide HasUnmergedDependency;
  }

  /** The kept merge is the strict minimum of the candidates. */
  lemma {:induction false} FirstIsMinimum(items: seq<Item>, all: seq<Item>, ids: seq<Id>)
    requires DistinctIds(items)
    ensures var first := FirstToMerge(items, all, ids);
      && (first < 0 ==> forall k :: 0 <= k < |items| ==> items[k].id !in ids)
      && (first >= 0 ==> forall k :: 0 <= k < |items| && items[k].id in ids && k != first ==> MergesBefore(all, items[first], items[k]))
  {
    hide MergesBefore;
    if items != [] {
      var last := |items| - 1;
      var shorter := items[..last];
      FirstIsMinimum(shorter, all, ids);
      var best := FirstToMerge(shorter, all, ids);
      if best >= 0 {
        MergesBeforeTotal(all, items[last], items[best]);
        forall k | 0 <= k < last && items[k].id in ids && k != best && MergesBefore(all, items[last], items[best])
          ensures MergesBefore(all, items[last], items[k])
        {
          MergesBeforeTransitive(all, items[last], items[best], shorter[k]);
        }
      }
      assert forall k :: 0 <= k < last ==> items[k] == shorter[k];
    }
  }

  lemma {:induction false} MergeIdsMeans(actions: seq<Action>, id: Id)
    ensures id in MergeIds(actions) <==> exists j :: 0 <= j < |actions| && actions[j].Merge? && actions[j].id == id
  {
    if actions != [] {
      MergeIdsMeans(actions[1..], id);
      assert forall j :: 0 < j < |actions| ==> actions[j] == actions[1..][j - 1];
      assert forall j :: 0 <= j < |actions[1..]| ==> actions[1..][j] == actions[j + 1];
    }
  }

  /** The actions that are not merges, in order. */
  function Others(actions: seq<Action>): seq<Action> {
    if actions == [] then [] else (if actions[0].Merge? then [] else [actions[0]]) + Others(actions[1..])
  }

  predicate MergesDistinct(actions: seq<Action>) {
    forall j, k :: 0 <= j < k < |actions| && actions[j].Merge? && actions[k].Merge? ==> actions[j].id != actions[k].id
  }

  /** Dropping the deferred merges keeps everything else, in order. */
  lemma {:induction false} KeepOneMergeOthers(actions: seq<Action>, keep: Id)
    ensures Others(KeepOneMerge(actions, keep)) == Others(actions)
  {
    if actions != [] {
      KeepOneMergeOthers(actions[1..], keep);
      var kept := KeepOneMerge(actions[1..], keep);
      assert ([actions[0]] + kept)[1..] == kept && [] + kept == kept;
    }
  }

  lemma {:induction false} KeepOneMergeMembers(actions: seq<Action>, keep: Id, a: Action)
    ensures a in KeepOneMerge(actions, keep) <==> a in actions && (a.Merge? ==> a.id == keep)
  {
    if actions != [] {
      KeepOneMergeMembers(actions[1..], keep, a);
      assert actions == [actions[0]] + actions[1..];
    }
  }

  /** And it keeps one merge. */
  lemma {:induction false} KeepOneMergeIds(actions: seq<Action>, keep: Id)
    requires MergesDistinct(actions)
    ensures MergeIds(KeepOneMerge(actions, keep)) == (if keep in MergeIds(actions) then [keep] else [])
  {
    if actions != [] {
      var rest := actions[1..];
      assert forall j :: 0 <= j < |rest| ==> rest[j] == actions[j + 1];
      KeepOneMergeIds(rest, keep);
      MergeIdsMeans(rest, keep);
      var kept := KeepOneMerge(rest, keep);
      assert ([actions[0]] + kept)[1..] == kept && [] + kept == kept;
    }
  }

  /** The item after the merge queue kept the merge of `keep`. */
  function DeferredItem(it: Item, ids: seq<Id>, keep: Id, now: int): Item {
    if it.id in ids && it.id != keep then Enter(it, CiPassed, now) else it
  }

  /** Every candidate but the kept one goes back to ci-passed; nothing else moves. */
  lemma {:induction false} DeferFromFacts(items: seq<Item>, i: nat, ids: seq<Id>, keep: Id, now: int)
    requires i <= |items|
    requires forall k :: i <= k < |items| && items[k].id in ids ==> items[k].state.Merging?
    ensures var r := DeferFrom(items, i, ids, keep, now);
      && r.Sweep? && r.actions == []
      && forall k :: 0 <= k < |items| ==> r.items[k] == if k >= i then DeferredItem(items[k], ids, keep, now) else items[k]
    decreases |items| - i
  {
    hide Enter;
    if i < |items| {
      var move := Defer(items[i], ids, keep, now);
      DeferFromFacts(items[i := move.item], i + 1, ids, keep, now);
    }
  }

  /** The merge candidates are merging items, each asked for once. */
  predicate Mergeable(items: seq<Item>, actions: seq<Action>) {
    && DistinctIds(items) && MergesDistinct(actions)
    && forall j :: 0 <= j < |actions| && actions[j].Merge? ==> MergeReady(items, 0, actions[j].id)
  }

  /** One of the item's tracked dependencies is still to merge. */
  predicate WaitsForDependency(items: seq<Item>, it: Item) {
    exists k :: 0 <= k < |items| && items[k].id in it.workItem.dependencies && items[k].state != Done && items[k].state != Merged
  }

  predicate MoreUrgent(a: Priority, b: Priority) {
    (a == Critical && b != Critical) || (a == High && (b == Medium || b == Low)) || (a == Medium && b == Low)
  }

  /** The order of the merges: unblocked ones first, then the more urgent, then the lower id. */
  predicate GoesFirst(items: seq<Item>, a: Item, b: Item) {
    || (!WaitsForDependency(items, a) && WaitsForDependency(items, b))
    || ((WaitsForDependency(items, a) <==> WaitsForDependency(items, b))
        && (MoreUrgent(a.workItem.priority, b.workItem.priority) || (a.workItem.priority == b.workItem.priority && a.id < b.id)))
  }

  lemma GoesFirstExactly(items: seq<Item>, a: Item, b: Item)
    ensures MergesBefore(items, a, b) <==> GoesFirst(items, a, b)
  {
    hide HasUnmergedDependency, WaitsForDependency;
    WaitsExactly(items, a);
    WaitsExactly(items, b);
  }

  lemma WaitsExactly(items: seq<Item>, it: Item)
    ensures HasUnmergedDependency(items, it) <==> WaitsForDependency(items, it)
  {
  }

  /** Item `first` is the candidate that merges before all others. */
  predicate IsFirst(items: seq<Item>, ids: seq<Id>, first: nat) {
    && first < |items| && items[first].id in ids
    && forall k :: 0 <= k < |items| && items[k].id in ids && k != first ==> GoesFirst(items, items[first], items[k])
  }

  /**
   * Main result: the merge queue never crashes. Of two or more candidates it keeps the strict
   * minimum, sends every other one back to ci-passed and touches nothing else; all actions that
   * are not merges survive in order.
   */
  lemma MergeQueueExactly(items: seq<Item>, actions: seq<Action>, now: int) returns (first: nat)
    requires Mergeable(items, actions)
    ensures var r := PrioritizeMergeActions(items, actions, now);
      var ids := MergeIds(actions);
      && r.Sweep? && |r.items| == |items|
      && Others(r.actions) == Others(actions) && |MergeIds(r.actions)| <= 1
      && (|ids| <= 1 ==> r == Sweep(items, actions))
      && (|ids| > 1 ==>
            && IsFirst(items, ids, first)
            && MergeIds(r.actions) == [items[first].id]
            && (forall a :: a in r.actions <==> a in actions && (a.Merge? ==> a.id == items[first].id))
            && (forall k :: 0 <= k < |items| ==> r.items[k] == DeferredItem(items[k], ids, items[first].id, now)))
  {
    hide Enter, MergesBefore, GoesFirst, FeedbackSettled;
    var ids := MergeIds(actions);
    first := 0;
    if |ids| > 1 {
      MergeIdsMeans(actions, ids[0]);
      FirstIsMinimum(items, items, ids);
      first := FirstToMerge(items, items, ids);
      forall k | 0 <= k < |items| && items[k].id in ids && k != first ensures GoesFirst(items, items[first], items[k]) {
        GoesFirstExactly(items, items[first], items[k]);
      }
      forall k | 0 <= k < |items| && items[k].id in ids ensures items[k].state.Merging? {
        MergeIdsMeans(actions, items[k].id);
      }
      DeferFromFacts(items, 0, ids, items[first].id, now);
      KeepOneMergeOthers(actions, items[first].id);
      KeepOneMergeIds(actions, items[first].id);
      forall a ensures a in KeepOneMerge(actions, items[first].id) <==> a in actions && (a.Merge? ==> a.id == items[first].id) {
        KeepOneMergeMembers(actions, items[first].id, a);
      }
    }
  }
}
