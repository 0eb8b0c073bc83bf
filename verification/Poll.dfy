/**
 * One poll over all tracked items: `processTransitions`, its effects on stacked dependents, the
 * promotion of queued items, the slot-limited launcher and the merge queue (core/orchestrator.ts).
 * Items are kept in insertion order, as the source's Map keeps them.
 */
module Poll {
  import opened OrchestratorTypes
  import opened Lifecycle

  /** The tracked items and the actions so far, or an exception on the way. */
  datatype Sweep = Sweep(items: seq<Item>, actions: seq<Action>) | Crash {
    predicate IsFailure() { Crash? }

    function PropagateFailure(): Sweep
      requires Crash?
    {
      this
    }

    function Extract(): Sweep
      requires Sweep?
    {
      this
    }
  }

  function SnapshotOf(snaps: map<Id, Snapshot>, id: Id): Snapshot {
    if id in snaps then snaps[id] else NoSnapshot()
  }

  /** The index of the item with this id, or -1. */
  function Find(items: seq<Item>, id: Id): (k: int)
    ensures -1 <= k < |items|
    ensures k >= 0 ==> items[k].id == id
    ensures k < 0 ==> forall j :: 0 <= j < |items| ==> items[j].id != id
  {
    if items == [] then -1
    else if items[|items| - 1].id == id && Find(items[..|items| - 1], id) < 0 then |items| - 1
    else Find(items[..|items| - 1], id)
  }

  predicate Stacked(other: Item, id: Id) {
    other.pr.baseBranch == Ref(id)
  }

  predicate PreSession(s: State) {
    s.Ready? || s.Launching?
  }

  // ---- Effects on stacked dependents ------------------------------------------------------

  /** A dependent that has not started yet goes back to the queue when its base gets stuck. */
  function RollBack(other: Item, id: Id, now: int): Item {
    if Stacked(other, id) && PreSession(other.state) then
      var queued := Enter(other, Queued, now);
      queued.(pr := queued.pr.(baseBranch := Absent))
    else other
  }

  function RollBackAll(items: seq<Item>, id: Id, now: int): (rolled: seq<Item>)
    ensures |rolled| == |items|
    ensures forall k :: 0 <= k < |items| ==> rolled[k] == RollBack(items[k], id, now)
  {
    seq(|items|, k requires 0 <= k < |items| => RollBack(items[k], id, now))
  }

  /** Tell the workers of stacked dependents that their base paused or resumed. */
  function NotifyStacked(items: seq<Item>, id: Id): seq<Action> {
    if items == [] then []
    else
      var other := items[0];
      (if Stacked(other, id) && !PreSession(other.state) && other.session.workspace.Workspace?
       then [RebaseRequest(other.id, id)] else [])
      + NotifyStacked(items[1..], id)
  }

  function NotifyAllStacked(items: seq<Item>, id: Id): seq<Action> {
    if items == [] then []
    else
      var other := items[0];
      (if Stacked(other, id) && other.session.workspace.Workspace? then [RebaseRequest(other.id, id)] else [])
      + NotifyAllStacked(items[1..], id)
  }

  predicate HasMergedDependency(items: seq<Item>, it: Item) {
    exists k :: 0 <= k < |items| && items[k].id in it.workItem.dependencies && (items[k].state.Done? || items[k].state.Merged?)
  }

  predicate GetsStuck(cfg: Config, before: State, after: State) {
    cfg.enableStacking && after.Stuck? && !before.Stuck?
  }

  predicate Recovers(cfg: Config, before: State, after: State) {
    cfg.enableStacking && before.CiFailed? && after.CiPending?
  }

  /** What a state change of item `it` does to the other items. */
  function AffectDependents(cfg: Config, items: seq<Item>, before: State, it: Item, now: int): (s: Sweep)
    ensures s.Sweep? && |s.items| == |items|
  {
    if GetsStuck(cfg, before, it.state) then
      Sweep(RollBackAll(items, it.id, now), NotifyStacked(items, it.id))
    else if Recovers(cfg, before, it.state) && !HasMergedDependency(items, it) then
      Sweep(items, NotifyAllStacked(items, it.id))
    else Sweep(items, [])
  }

  /** transitionItem on item `i`. */
  function VisitItem(cfg: Config, items: seq<Item>, i: nat, snaps: map<Id, Snapshot>, now: int): (s: Sweep)
    requires i < |items|
    ensures s.Sweep? ==> |s.items| == |items|
  {
    var it, snap := items[i], SnapshotOf(snaps, items[i].id);
    var body := Body(cfg, it, snap, now);
    if !body.Step? then Crash
    else if ExternallyMerged(it, snap) then Sweep(items[i := body.item], body.actions)
    else
      var affected := AffectDependents(cfg, items[i := body.item], it.state, body.item, now);
      var tail := Tail(affected.items[i], snap, now);
      if !tail.Step? then Crash
      else Sweep(affected.items[i := tail.item], body.actions + affected.actions + tail.actions)
  }

  function VisitFrom(cfg: Config, items: seq<Item>, i: nat, snaps: map<Id, Snapshot>, now: int): (s: Sweep)
    requires i <= |items|
    ensures s.Sweep? ==> |s.items| == |items|
    decreases |items| - i
  {
    if i == |items| then Sweep(items, [])
    else
      var visited :- VisitItem(cfg, items, i, snaps, now);
      var rest :- VisitFrom(cfg, visited.items, i + 1, snaps, now);
      Sweep(rest.items, visited.actions + rest.actions)
  }

  // ---- Merge re-evaluation after a strategy change ----------------------------------------

  function Reevaluate(cfg: Config, it: Item, snap: Snapshot, now: int): Step {
    if it.state.ReviewPending? && snap.ciStatus.Pass? then EvaluateMerge(cfg, it, snap, now) else Step(it, [])
  }

  function ReevaluateFrom(cfg: Config, items: seq<Item>, i: nat, snaps: map<Id, Snapshot>, now: int): (s: Sweep)
    requires i <= |items|
    ensures s.Sweep? ==> |s.items| == |items|
    decreases |items| - i
  {
    if i == |items| then Sweep(items, [])
    else
      var step := Reevaluate(cfg, items[i], SnapshotOf(snaps, items[i].id), now);
      if !step.Step? then Crash
      else
        var rest :- ReevaluateFrom(cfg, items[i := step.item], i + 1, snaps, now);
        Sweep(rest.items, step.actions + rest.actions)
  }

  // ---- Promotion and launch ---------------------------------------------------------------

  function Promote(it: Item, readyIds: set<Id>, now: int): Item {
    if it.state.Queued? && it.id in readyIds then Enter(it, Ready, now) else it
  }

  function PromoteAll(items: seq<Item>, readyIds: set<Id>, now: int): (promoted: seq<Item>)
    ensures |promoted| == |items|
    ensures forall k :: 0 <= k < |items| ==> promoted[k] == Promote(items[k], readyIds, now)
  {
    seq(|items|, k requires 0 <= k < |items| => Promote(items[k], readyIds, now))
  }

  /** The dependency needs no more work before its dependents may build on the default branch. */
  predicate Finished(cfg: Config, dep: Item) {
    dep.state.Done? || (!cfg.fixForward && dep.state.Merged?)
  }

  /** The loop of canStackLaunch over the remaining dependencies; `found` is the stackable one so far. */
  function StackOn(cfg: Config, items: seq<Item>, deps: seq<Id>, found: Ref): Ref {
    if deps == [] then found
    else
      var k := Find(items, deps[0]);
      if k < 0 || Finished(cfg, items[k]) then StackOn(cfg, items, deps[1..], found)
      else if items[k].repair.failCount > 0 then Absent
      else if !Stackable(items[k].state) || found.Ref? then Absent
      else StackOn(cfg, items, deps[1..], Ref(items[k].id))
  }

  /** canStackLaunch: the base branch to stack on, if any. */
  function CanStackLaunch(cfg: Config, items: seq<Item>, it: Item): Ref {
    if !cfg.enableStacking then Absent else StackOn(cfg, items, it.workItem.dependencies, Absent)
  }

  /** A queued item is promoted onto the branch of its one in-flight dependency. */
  function StackLaunch(cfg: Config, items: seq<Item>, it: Item, now: int): Item {
    var base := CanStackLaunch(cfg, items, it);
    if it.state.Queued? && base.Ref? then Enter(it.(pr := it.pr.(baseBranch := base)), Ready, now) else it
  }

  function StackFrom(cfg: Config, items: seq<Item>, i: nat, now: int): (stacked: seq<Item>)
    requires i <= |items|
    ensures |stacked| == |items|
    decreases |items| - i
  {
    if i == |items| then items
    else StackFrom(cfg, items[i := StackLaunch(cfg, items, items[i], now)], i + 1, now)
  }

  /** activeItemCount. */
  function ActiveCount(items: seq<Item>): nat {
    if items == [] then 0
    else ActiveCount(items[..|items| - 1]) + (if Active(items[|items| - 1].state) then 1 else 0)
  }

  /** availableInflightSlots. */
  function AvailableSlots(cfg: Config, items: seq<Item>): nat {
    if ActiveCount(items) < cfg.maxInflight then cfg.maxInflight - ActiveCount(items) else 0
  }

  /** Launch ready items from index `i` on while slots last. */
  function LaunchFrom(items: seq<Item>, i: nat, slots: nat, now: int): (s: Sweep)
    requires i <= |items|
    ensures s.Sweep? && |s.items| == |items|
    decreases |items| - i
  {
    if i == |items| || slots == 0 then Sweep(items, [])
    else if !items[i].state.Ready? then LaunchFrom(items, i + 1, slots, now)
    else
      var rest := LaunchFrom(items[i := Enter(items[i], Launching, now)], i + 1, slots - 1, now);
      Sweep(rest.items, [Launch(items[i].id, items[i].pr.baseBranch)] + rest.actions)
  }

  /** launchReadyItems. */
  function LaunchReadyItems(cfg: Config, items: seq<Item>, now: int): (s: Sweep)
    ensures s.Sweep? && |s.items| == |items|
  {
    if !cfg.acceptingWork then Sweep(items, []) else LaunchFrom(items, 0, AvailableSlots(cfg, items), now)
  }

  // ---- Merge queue ------------------------------------------------------------------------

  /** The ids of the merge actions, in order. */
  function MergeIds(actions: seq<Action>): seq<Id> {
    if actions == [] then []
    else (if actions[0].Merge? then [actions[0].id] else []) + MergeIds(actions[1..])
  }

  predicate HasUnmergedDependency(items: seq<Item>, it: Item) {
    exists k :: 0 <= k < |items| && items[k].id in it.workItem.dependencies && !items[k].state.Done? && !items[k].state.Merged?
  }

  /** The comparator of prioritizeMergeActions: unblocked items, then priority, then id. */
  predicate MergesBefore(items: seq<Item>, a: Item, b: Item) {
    var aBlocked, bBlocked := HasUnmergedDependency(items, a), HasUnmergedDependency(items, b);
    if aBlocked != bBlocked then bBlocked
    else if a.workItem.priority != b.workItem.priority then a.workItem.priority.Rank() < b.workItem.priority.Rank()
    else a.id < b.id
  }

  /** The index of the first item in the order of the comparator among those whose id is listed, or -1. */
  function FirstToMerge(items: seq<Item>, all: seq<Item>, ids: seq<Id>): (k: int)
    ensures -1 <= k < |items|
    ensures k >= 0 ==> items[k].id in ids
  {
    if items == [] then -1
    else
      var last := |items| - 1;
      var best := FirstToMerge(items[..last], all, ids);
      if items[last].id in ids && (best < 0 || MergesBefore(all, items[last], items[best])) then last else best
  }

  /** A deferred merge goes back to ci-passed. */
  function Defer(it: Item, ids: seq<Id>, keep: Id, now: int): Move {
    if it.id in ids && it.id != keep then Transition(it, CiPassed, now) else Moved(it)
  }

  function DeferFrom(items: seq<Item>, i: nat, ids: seq<Id>, keep: Id, now: int): (s: Sweep)
    requires i <= |items|
    ensures s.Sweep? ==> |s.items| == |items|
    decreases |items| - i
  {
    if i == |items| then Sweep(items, [])
    else
      var move := Defer(items[i], ids, keep, now);
      if move.Illegal? then Crash else DeferFrom(items[i := move.item], i + 1, ids, keep, now)
  }

  /** The actions without the merges of other items than `keep`. */
  function KeepOneMerge(actions: seq<Action>, keep: Id): seq<Action> {
    if actions == [] then []
    else (if actions[0].Merge? && actions[0].id != keep then [] else [actions[0]]) + KeepOneMerge(actions[1..], keep)
  }

  /** prioritizeMergeActions. */
  function PrioritizeMergeActions(items: seq<Item>, actions: seq<Action>, now: int): Sweep {
    var ids := MergeIds(actions);
    var first := FirstToMerge(items, items, ids);
    if |ids| <= 1 || first < 0 then Sweep(items, actions)
    else
      var deferred :- DeferFrom(items, 0, ids, items[first].id, now);
      Sweep(deferred.items, KeepOneMerge(actions, items[first].id))
  }

  // ---- The poll ---------------------------------------------------------------------------

  /** Every item's transition, then the merge re-evaluation. */
  function Transitioned(cfg: Config, items: seq<Item>, reevaluate: bool, snaps: map<Id, Snapshot>, now: int): Sweep {
    var visited :- VisitFrom(cfg, items, 0, snaps, now);
    if !reevaluate then visited
    else
      var evaluated :- ReevaluateFrom(cfg, visited.items, 0, snaps, now);
      Sweep(evaluated.items, visited.actions + evaluated.actions)
  }

  /** Queued items whose dependencies are met, or that can be stacked, become ready. */
  function Promoted(cfg: Config, items: seq<Item>, readyIds: set<Id>, now: int): (promoted: seq<Item>)
    ensures |promoted| == |items|
  {
    var unblocked := PromoteAll(items, readyIds, now);
    if cfg.enableStacking then StackFrom(cfg, unblocked, 0, now) else unblocked
  }

  /** processTransitions. */
  function ProcessTransitions(cfg: Config, items: seq<Item>, reevaluate: bool, snaps: map<Id, Snapshot>,
                              readyIds: set<Id>, now: int): Sweep
  {
    var moved :- Transitioned(cfg, items, reevaluate, snaps, now);
    var launched := LaunchReadyItems(cfg, Promoted(cfg, moved.items, readyIds, now), now);
    PrioritizeMergeActions(launched.items, moved.actions + launched.actions, now)
  }
}
