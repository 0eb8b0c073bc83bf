/**
 * Runs that execute only what a poll asked for, no action more often than it was asked for, built
 * one event at a time around a single item.
 */
module LawfulRuns {
  import opened OrchestratorTypes
  import opened OrchestratorGuards
  import opened Lifecycle
  import opened LifecycleFacts
  import opened LifecycleSteps
  import opened Poll
  import opened PollFacts
  import opened PollQueues
  import opened PollTheorems
  import opened PollHomes
  import opened Execution
  import opened Claims
  import opened Run

  /** The world a run from the empty orchestrator leads to. */
  function After(cfg: Config, events: seq<Event>): World {
    RunFrom(cfg, Start(cfg), events)
  }

  /** The actions a run executes. */
  function Executed(events: seq<Event>): multiset<Action> {
    if events == [] then multiset{}
    else
      var last := events[|events| - 1];
      Executed(events[..|events| - 1]) + (if last.ExecuteEvent? then multiset{last.action} else multiset{})
  }

  /** A poll asked for the action, and more often than it was executed. */
  predicate Due(cfg: Config, events: seq<Event>, action: Action) {
    var w := After(cfg, events);
    w.World? && Executed(events)[action] < multiset(w.log)[action]
  }

  /** Ids are fresh, and every executed action was due. */
  predicate Lawful(cfg: Config, events: seq<Event>) {
    && FreshIds(cfg, Start(cfg), events)
    && forall n :: 0 <= n < |events| && events[n].ExecuteEvent? ==> Due(cfg, events[..n], events[n].action)
  }

  /** The run ends with the poll of a world whose only item tries this edge and throws. */
  predicate EndsThrowing(cfg: Config, events: seq<Event>, from: State, to: State) {
    && events != [] && Lawful(cfg, events) && After(cfg, events) == Crashed
    && var w, last := After(cfg, events[..|events| - 1]), events[|events| - 1];
    && w.World? && last.PollEvent? && |w.items| == 1
    && var it, snap := w.items[0], SnapshotOf(last.snaps, w.items[0].id);
    && ItemThrows(Live(cfg, w), it, snap, last.now)
    && TransitionItem(Live(cfg, w), it, snap, last.now) == Throw(from, to)
  }

  // ---- One more event ---------------------------------------------------------------------

  lemma {:induction false} RunAppends(cfg: Config, w: World, events: seq<Event>, e: Event)
    requires RunFrom(cfg, w, events).World?
    ensures RunFrom(cfg, w, events + [e]) == Next(cfg, RunFrom(cfg, w, events), e)
    ensures FreshIds(cfg, w, events) && FreshId(RunFrom(cfg, w, events), e) ==> FreshIds(cfg, w, events + [e])
    decreases |events|
  {
    hide Next, FreshId;
    var all := events + [e];
    if events == [] {
      assert all == [e];
      assert RunFrom(cfg, Next(cfg, w, e), []) == Next(cfg, w, e);
    } else {
      assert all[0] == events[0] && all[1..] == events[1..] + [e];
      RunAppends(cfg, Next(cfg, w, events[0]), events[1..], e);
    }
  }

  lemma Appends(cfg: Config, events: seq<Event>, e: Event)
    requires Lawful(cfg, events) && After(cfg, events).World? && FreshId(After(cfg, events), e)
    requires e.ExecuteEvent? ==> Due(cfg, events, e.action)
    ensures After(cfg, events + [e]) == Next(cfg, After(cfg, events), e)
    ensures Executed(events + [e]) == Executed(events) + (if e.ExecuteEvent? then multiset{e.action} else multiset{})
    ensures Lawful(cfg, events + [e])
  {
    hide Next, FreshId, FreshIds, RunFrom, Due, Executed;
    var all := events + [e];
    RunAppends(cfg, Start(cfg), events, e);
    ExecutesLast(events, e);
    forall n | 0 <= n < |all| && all[n].ExecuteEvent? ensures Due(cfg, all[..n], all[n].action) {
      assert all[..n] == events[..n];
      assert n == |events| ==> events[..n] == events;
    }
  }

  lemma ExecutesLast(events: seq<Event>, e: Event)
    ensures Executed(events + [e]) == Executed(events) + (if e.ExecuteEvent? then multiset{e.action} else multiset{})
  {
    assert (events + [e])[..|events|] == events;
  }

  // ---- Runs of one item -------------------------------------------------------------------

  /** A configuration with room for one worker, without stacking. */
  predicate Roomy(cfg: Config) {
    cfg.maxInflight > 0 && cfg.acceptingWork && !cfg.enableStacking
  }

  /** The world tracks this item and nothing else, under the strategy of the configuration. */
  predicate Single(cfg: Config, w: World, it: Item) {
    w.World? && w.items == [it] && w.strategy == cfg.mergeStrategy && !w.reevaluate && ParkedOk(it)
  }

  /** A lawful run that leads to this one item. */
  predicate Tracks(cfg: Config, events: seq<Event>, it: Item) {
    && Lawful(cfg, events) && Single(cfg, After(cfg, events), it)
    && Executed(events) <= multiset(After(cfg, events).log)
  }

  function PollOf(it: Item, snap: Snapshot, now: int): Event {
    PollEvent(map[it.id := snap], {it.id}, Alone, now)
  }

  lemma LiveIsConfig(cfg: Config, w: World, it: Item)
    requires Single(cfg, w, it)
    ensures Live(cfg, w) == cfg
  {
  }

  lemma VisitOne(cfg: Config, it: Item, snap: Snapshot, now: int)
    requires ParkedOk(it) && TransitionItem(cfg, it, snap, now).Step?
    ensures var s := VisitFrom(cfg, [it], 0, map[it.id := snap], now);
      && s.Sweep? && s.items == [TransitionItem(cfg, it, snap, now).item] && AllParkedOk(s.items)
      && forall a :: a in TransitionItem(cfg, it, snap, now).actions ==> a in s.actions
  {
    hide TransitionItem, VisitItem, ItemThrows, Count, Sound;
    var snaps := map[it.id := snap];
    VisitIsTransition(cfg, [it], 0, snaps, now);
    ThrowsExactly(cfg, it, snap, now);
    VisitTells(cfg, it, snap, now);
    var visited := VisitItem(cfg, [it], 0, snaps, now);
    assert VisitFrom(cfg, visited.items, 1, snaps, now) == Sweep(visited.items, []);
  }

  lemma VisitTells(cfg: Config, it: Item, snap: Snapshot, now: int)
    requires TransitionItem(cfg, it, snap, now).Step? && VisitItem(cfg, [it], 0, map[it.id := snap], now).Sweep?
    requires ParkedOk(it)
    ensures forall a :: a in TransitionItem(cfg, it, snap, now).actions ==> a in VisitItem(cfg, [it], 0, map[it.id := snap], now).actions
  {
    hide Body, Tail, AffectDependents;
    var body := Body(cfg, it, snap, now);
    if body.Step? && !ExternallyMerged(it, snap) {
      var items := [it][0 := body.item];
      AffectSparesOwn(cfg, items, 0, it.state, now);
    }
  }

  /** What the poll of the one item asks for goes into the log. */
  lemma PollLogs(cfg: Config, w: World, it: Item, snap: Snapshot, now: int)
    requires Single(cfg, w, it) && TransitionItem(cfg, it, snap, now).Step?
    ensures var next := Next(cfg, w, PollOf(it, snap, now));
      && next.World? && multiset(w.log) <= multiset(next.log)
      && forall a :: a in TransitionItem(cfg, it, snap, now).actions && !a.Merge? ==> multiset(w.log)[a] < multiset(next.log)[a]
  {
    hide TransitionItem, ItemThrows, PrioritizeMergeActions, Launched, Justified, Mergeable, VisitFrom, ParkedOk;
    var snaps := map[it.id := snap];
    LiveIsConfig(cfg, w, it);
    VisitOne(cfg, it, snap, now);
    PollCrashesExactly(cfg, w.items, false, snaps, {it.id}, now);
    VisitFromCrashes(cfg, w.items, 0, snaps, now);
    var moved, launched := PollShape(cfg, w.items, false, snaps, {it.id}, now);
    QueueKeepsOthers(launched.items, moved.actions + launched.actions, now);
    var r := ProcessTransitions(cfg, w.items, false, snaps, {it.id}, now);
    assert multiset(w.log + r.actions) == multiset(w.log) + multiset(r.actions);
  }

  lemma QueueKeepsOthers(items: seq<Item>, actions: seq<Action>, now: int)
    requires Mergeable(items, actions)
    ensures var r := PrioritizeMergeActions(items, actions, now);
      r.Sweep? && forall a :: a in actions && !a.Merge? ==> a in r.actions
  {
    hide PrioritizeMergeActions, Mergeable, IsFirst, DeferredItem, AskedOnce;
    var first := MergeQueueExactly(items, actions, now);
    OthersAskedOnce(actions);
    OthersAskedOnce(PrioritizeMergeActions(items, actions, now).actions);
  }

  /** A poll of the one item that leaves it neither waiting to start nor merging. */
  lemma PollOne(cfg: Config, w: World, it: Item, snap: Snapshot, now: int)
    requires Single(cfg, w, it) && TransitionItem(cfg, it, snap, now).Step?
    requires var next := TransitionItem(cfg, it, snap, now).item.state; !next.Queued? && !next.Ready? && !next.Merging?
    ensures Single(cfg, Next(cfg, w, PollOf(it, snap, now)), TransitionItem(cfg, it, snap, now).item)
  {
    hide TransitionItem, ItemThrows, PrioritizeMergeActions, Launched, Justified, Mergeable, VisitFrom, ParkedOk;
    var snaps, next := map[it.id := snap], TransitionItem(cfg, it, snap, now).item;
    LiveIsConfig(cfg, w, it);
    VisitOne(cfg, it, snap, now);
    PollCrashesExactly(cfg, w.items, false, snaps, {it.id}, now);
    VisitFromCrashes(cfg, w.items, 0, snaps, now);
    var moved, launched := PollShape(cfg, w.items, false, snaps, {it.id}, now);
    assert moved == VisitFrom(cfg, w.items, 0, snaps, now);
    QueueLeaves(launched.items, moved.actions + launched.actions, now);
    var r := ProcessTransitions(cfg, w.items, false, snaps, {it.id}, now);
    assert PollTheorems.Started(moved.items[0], launched.items[0]) && Deferred(launched.items[0], r.items[0]);
    assert r.items == [next];
  }

  function Readied1(it: Item, now: int): Item {
    if it.state.Queued? then Enter(it, Ready, now) else it
  }

  function Launched1(it: Item, now: int): Item {
    Enter(Readied1(it, now), Launching, now)
  }

  /** A poll that leaves the one item waiting to start launches it. */
  lemma PollLaunches(cfg: Config, w: World, it: Item, snap: Snapshot, now: int)
    requires Roomy(cfg) && Single(cfg, w, it) && TransitionItem(cfg, it, snap, now).Step?
    requires var next := TransitionItem(cfg, it, snap, now).item; (next.state.Queued? || next.state.Ready?) && next.id == it.id
    ensures Single(cfg, Next(cfg, w, PollOf(it, snap, now)), Launched1(TransitionItem(cfg, it, snap, now).item, now))
  {
    hide TransitionItem, ItemThrows, PrioritizeMergeActions, Justified, Mergeable, VisitFrom, Enter, Launched, ParkedOk;
    var snaps, next := map[it.id := snap], TransitionItem(cfg, it, snap, now).item;
    LiveIsConfig(cfg, w, it);
    VisitOne(cfg, it, snap, now);
    PollCrashesExactly(cfg, w.items, false, snaps, {it.id}, now);
    VisitFromCrashes(cfg, w.items, 0, snaps, now);
    var moved, launched := PollShape(cfg, w.items, false, snaps, {it.id}, now);
    assert moved == VisitFrom(cfg, w.items, 0, snaps, now);
    LaunchOne(cfg, next, now);
    QueueLeaves(launched.items, moved.actions + launched.actions, now);
    var r := ProcessTransitions(cfg, w.items, false, snaps, {it.id}, now);
    LaunchedState(next, now);
    assert Deferred(launched.items[0], r.items[0]);
    assert r.items == [Launched1(next, now)];
  }

  /** Its launch goes into the log. */
  lemma LaunchLogs(cfg: Config, w: World, it: Item, snap: Snapshot, now: int)
    requires Roomy(cfg) && Single(cfg, w, it) && TransitionItem(cfg, it, snap, now).Step?
    requires var next := TransitionItem(cfg, it, snap, now).item; (next.state.Queued? || next.state.Ready?) && next.id == it.id
    ensures var after, launch := Next(cfg, w, PollOf(it, snap, now)), Launch(it.id, TransitionItem(cfg, it, snap, now).item.pr.baseBranch);
      after.World? && multiset(w.log)[launch] < multiset(after.log)[launch]
  {
    hide TransitionItem, ItemThrows, PrioritizeMergeActions, Justified, Mergeable, VisitFrom, Enter, Launched, ParkedOk;
    var snaps, next := map[it.id := snap], TransitionItem(cfg, it, snap, now).item;
    LiveIsConfig(cfg, w, it);
    VisitOne(cfg, it, snap, now);
    PollCrashesExactly(cfg, w.items, false, snaps, {it.id}, now);
    VisitFromCrashes(cfg, w.items, 0, snaps, now);
    var moved, launched := PollShape(cfg, w.items, false, snaps, {it.id}, now);
    assert moved == VisitFrom(cfg, w.items, 0, snaps, now);
    LaunchOne(cfg, next, now);
    var all := moved.actions + launched.actions;
    QueueKeepsOthers(launched.items, all, now);
    var r := ProcessTransitions(cfg, w.items, false, snaps, {it.id}, now);
    assert Launch(it.id, next.pr.baseBranch) in all;
    assert multiset(w.log + r.actions) == multiset(w.log) + multiset(r.actions);
  }

  lemma LaunchedState(it: Item, now: int)
    ensures var next := Launched1(it, now);
      next.state.Launching? && next.id == it.id && next.pr == it.pr && (it.state.Queued? || it.state.Ready? ==> ParkedOk(next))
  {
  }

  lemma LaunchOne(cfg: Config, it: Item, now: int)
    requires Roomy(cfg) && (it.state.Queued? || it.state.Ready?)
    ensures var s := Launched(cfg, [it], {it.id}, now);
      s.items == [Launched1(it, now)] && Launch(it.id, it.pr.baseBranch) in s.actions
  {
    hide Enter;
    var ready := Readied1(it, now);
    EnterState(it, Ready, now);
    EnterState(ready, Launching, now);
    assert Promoted(cfg, [it], {it.id}, now) == [ready];
    assert [ready][..0] == [];
    assert ActiveCount([ready]) == 0;
    LaunchReadyExactly(cfg, [ready], now);
    EnterKeepsBase(it, now);
    assert Launches([ready], [Launched1(it, now)], 0)[0] == Launch(ready.id, ready.pr.baseBranch);
  }

  lemma EnterKeepsBase(it: Item, now: int)
    ensures Readied1(it, now).pr == it.pr
  {
  }

  /** Executing an action on the one item. */
  lemma ExecuteOne(cfg: Config, w: World, it: Item, action: Action, answers: Answers, now: int)
    requires Single(cfg, w, it) && action.id == it.id && !action.Merge?
    requires ExecuteAction(cfg, w.items, it, action, answers, now).Moved?
    requires ParkedOk(ExecuteAction(cfg, w.items, it, action, answers, now).item)
    ensures Single(cfg, Next(cfg, w, ExecuteEvent(action, answers, now)), ExecuteAction(cfg, w.items, it, action, answers, now).item)
    ensures Next(cfg, w, ExecuteEvent(action, answers, now)).log == w.log
  {
    hide ExecuteAction;
    LiveIsConfig(cfg, w, it);
    FindUnique([it], 0);
  }

  lemma CrashOne(cfg: Config, w: World, it: Item, snap: Snapshot, now: int)
    requires Single(cfg, w, it) && ItemThrows(cfg, it, snap, now)
    ensures Next(cfg, w, PollOf(it, snap, now)) == Crashed
  {
    hide ItemThrows, ProcessTransitions, ParkedOk;
    LiveIsConfig(cfg, w, it);
    PollCrashesExactly(cfg, w.items, false, map[it.id := snap], {it.id}, now);
    assert ItemThrows(cfg, w.items[0], SnapshotOf(map[it.id := snap], w.items[0].id), now);
  }

  // ---- The same, at the end of a lawful run ------------------------------------------------

  /** What the last poll asked for is due. */
  predicate AllDue(cfg: Config, events: seq<Event>, actions: seq<Action>) {
    forall a :: a in actions && !a.Merge? ==> Due(cfg, events, a)
  }

  lemma Adds(cfg: Config, w: WorkItem)
    ensures Tracks(cfg, [ItemAdded(w, 0)], NewItem(w, 0))
  {
    hide Next, Lawful, ParkedOk;
    var e := ItemAdded(w, 0);
    assert [] + [e] == [e];
    NothingHappened(cfg, w);
    Appends(cfg, [], e);
    FirstItem(cfg, w);
  }

  lemma NothingHappened(cfg: Config, w: WorkItem)
    ensures Lawful(cfg, []) && After(cfg, []) == Start(cfg) && FreshId(Start(cfg), ItemAdded(w, 0))
  {
  }

  lemma FirstItem(cfg: Config, w: WorkItem)
    ensures Single(cfg, Next(cfg, Start(cfg), ItemAdded(w, 0)), NewItem(w, 0))
  {
    assert [] + [NewItem(w, 0)] == [NewItem(w, 0)];
  }

  lemma Polls(cfg: Config, events: seq<Event>, it: Item, snap: Snapshot, now: int)
    requires Tracks(cfg, events, it) && TransitionItem(cfg, it, snap, now).Step?
    requires var next := TransitionItem(cfg, it, snap, now).item.state; !next.Queued? && !next.Ready? && !next.Merging?
    ensures var all, step := events + [PollOf(it, snap, now)], TransitionItem(cfg, it, snap, now);
      Tracks(cfg, all, step.item) && AllDue(cfg, all, step.actions)
  {
    hide TransitionItem, Next, After, Executed, ParkedOk, Lawful;
    Appends(cfg, events, PollOf(it, snap, now));
    PollOne(cfg, After(cfg, events), it, snap, now);
    PollLogs(cfg, After(cfg, events), it, snap, now);
  }

  lemma Launches1(cfg: Config, events: seq<Event>, it: Item, snap: Snapshot, now: int)
    requires Roomy(cfg) && Tracks(cfg, events, it) && TransitionItem(cfg, it, snap, now).Step?
    requires var next := TransitionItem(cfg, it, snap, now).item; (next.state.Queued? || next.state.Ready?) && next.id == it.id
    ensures var all, next := events + [PollOf(it, snap, now)], TransitionItem(cfg, it, snap, now).item;
      Tracks(cfg, all, Launched1(next, now)) && Due(cfg, all, Launch(it.id, next.pr.baseBranch))
  {
    hide TransitionItem, Next, After, Executed, ParkedOk, Lawful, Launched1;
    Appends(cfg, events, PollOf(it, snap, now));
    PollLaunches(cfg, After(cfg, events), it, snap, now);
    LaunchLogs(cfg, After(cfg, events), it, snap, now);
    PollLogs(cfg, After(cfg, events), it, snap, now);
  }

  lemma Executes1(cfg: Config, events: seq<Event>, it: Item, action: Action, answers: Answers, now: int)
    requires Tracks(cfg, events, it) && Due(cfg, events, action) && action.id == it.id && !action.Merge?
    requires ExecuteAction(cfg, [it], it, action, answers, now).Moved?
    requires ParkedOk(ExecuteAction(cfg, [it], it, action, answers, now).item)
    ensures Tracks(cfg, events + [ExecuteEvent(action, answers, now)], ExecuteAction(cfg, [it], it, action, answers, now).item)
  {
    hide ExecuteAction, Next, After, Executed, ParkedOk, Lawful;
    Appends(cfg, events, ExecuteEvent(action, answers, now));
    ExecuteOne(cfg, After(cfg, events), it, action, answers, now);
  }

  lemma Crashes1(cfg: Config, events: seq<Event>, it: Item, snap: Snapshot, now: int)
    requires Tracks(cfg, events, it) && ItemThrows(cfg, it, snap, now)
    ensures var step := TransitionItem(cfg, it, snap, now);
      step.Throw? && EndsThrowing(cfg, events + [PollOf(it, snap, now)], step.from, step.to)
  {
    hide TransitionItem, ItemThrows, Next, RunFrom, Executed, ParkedOk, Lawful;
    var e := PollOf(it, snap, now);
    Appends(cfg, events, e);
    CrashOne(cfg, After(cfg, events), it, snap, now);
    ThrowsExactly(cfg, it, snap, now);
    LiveIsConfig(cfg, After(cfg, events), it);
    assert (events + [e])[..|events|] == events;
  }
}
