/**
 * Whole runs: any sequence of polls, executed actions, observed commits, changes of the merge
 * strategy, and items added, removed or edited by the watch pass, with arbitrary answers from
 * outside. The rest of the configuration stays.
 */
module Run {
  import opened OrchestratorTypes
  import opened Lifecycle
  import opened LifecycleFacts
  import opened LifecycleSteps
  import opened Poll
  import opened PollFacts
  import opened PollQueues
  import opened PollTheorems
  import opened PollBounds
  import opened Execution
  import opened ExecutionFacts
  import opened Claims
  import opened RuntimeSettings

  /**
   * The tracked items, every action asked for so far, the ids whose approve verdict was read, those
   * that were merging when an edit flagged them for manual review, the merge strategy, the ids that
   * were merging when it became manual, and whether a change of it forces a re-evaluation.
   */
  datatype World =
    | World(items: seq<Item>, log: seq<Action>, approvals: set<Id>, flagged: set<Id>,
            strategy: MergeStrategy, overtaken: set<Id>, reevaluate: bool)
    | Crashed

  datatype Event =
    | PollEvent(snaps: map<Id, Snapshot>, readyIds: set<Id>, crew: Crew, now: int)
    | ExecuteEvent(action: Action, answers: Answers, now: int)
    | CommitSeen(id: Id, time: Time)
    | ItemAdded(workItem: WorkItem, now: int)
    | ItemRemoved(id: Id)
    | PayloadReplaced(workItem: WorkItem)
    | StrategySet(strategy: MergeStrategy)

  /** The configuration with the merge strategy of the moment. */
  function Live(cfg: Config, w: World): Config
    requires w.World?
  {
    cfg.(mergeStrategy := w.strategy)
  }

  /** A poll reads its snapshot, and the event loop resolves the launches. */
  function AfterPoll(cfg: Config, w: World, e: Event): World
    requires w.World? && e.PollEvent?
  {
    var r := ProcessTransitions(Live(cfg, w), w.items, w.reevaluate, e.snaps, e.readyIds, e.now);
    if r.Crash? then Crashed
    else
      var resolved := ResolveClaims(r.items, r.actions, e.crew, e.now);
      w.(items := resolved.items, log := w.log + resolved.actions, approvals := w.approvals + ApprovalsRead(w.items, e.snaps),
         reevaluate := false)
  }

  function MergingIds(items: seq<Item>): set<Id> {
    set k | 0 <= k < |items| && items[k].state.Merging? :: items[k].id
  }

  /** setMergeStrategy: a change forces the re-evaluation of the items in review-pending. */
  function WithStrategy(w: World, strategy: MergeStrategy): World
    requires w.World?
  {
    if strategy == w.strategy then w
    else w.(strategy := strategy, overtaken := if strategy.Manual? then w.overtaken + MergingIds(w.items) else w.overtaken,
            reevaluate := true)
  }

  function CommitObserved(items: seq<Item>, id: Id, time: Time): seq<Item> {
    var k := Find(items, id);
    if k < 0 then items else items[k := items[k].(pr := items[k].pr.(lastCommitTime := time))]
  }

  function WithoutItem(items: seq<Item>, id: Id): seq<Item> {
    var k := Find(items, id);
    if k < 0 then items else items[..k] + items[k + 1..]
  }

  function WithPayload(items: seq<Item>, workItem: WorkItem): seq<Item> {
    var k := Find(items, workItem.id);
    if k < 0 then items else items[k := items[k].(workItem := workItem)]
  }

  /** The edit flags an item for manual review while it is merging. */
  predicate FlagsMerging(items: seq<Item>, workItem: WorkItem) {
    var k := Find(items, workItem.id);
    k >= 0 && items[k].state.Merging? && workItem.requiresManualReview
  }

  function Next(cfg: Config, w: World, e: Event): World
    requires w.World?
  {
    match e
    case PollEvent(_, _, _, _) => AfterPoll(cfg, w, e)
    case ExecuteEvent(action, answers, now) =>
      var s := Execute(Live(cfg, w), w.items, action, answers, now);
      if s.Crash? then Crashed else w.(items := s.items)
    case CommitSeen(id, time) => w.(items := CommitObserved(w.items, id, time))
    case ItemAdded(workItem, now) => w.(items := w.items + [NewItem(workItem, now)])
    case ItemRemoved(id) => w.(items := WithoutItem(w.items, id))
    case PayloadReplaced(workItem) =>
      w.(items := WithPayload(w.items, workItem),
         flagged := if FlagsMerging(w.items, workItem) then w.flagged + {workItem.id} else w.flagged)
    case StrategySet(strategy) => WithStrategy(w, strategy)
  }

  /** Added items have ids that this run never used. */
  predicate FreshId(w: World, e: Event)
    requires w.World?
  {
    e.ItemAdded? ==>
      && (forall k :: 0 <= k < |w.items| ==> w.items[k].id != e.workItem.id)
      && (forall a :: a in w.log ==> a.id != e.workItem.id)
  }

  predicate FreshIds(cfg: Config, w: World, events: seq<Event>)
    decreases |events|
  {
    w.World? && events != [] ==> FreshId(w, events[0]) && FreshIds(cfg, Next(cfg, w, events[0]), events[1..])
  }

  function RunFrom(cfg: Config, w: World, events: seq<Event>): World
    decreases |events|
  {
    if w.Crashed? || events == [] then w else RunFrom(cfg, Next(cfg, w, events[0]), events[1..])
  }

  /** Nothing tracked yet. */
  function Start(cfg: Config): World {
    World([], [], {}, {}, cfg.mergeStrategy, {}, false)
  }

  // ---- The invariant of a run -------------------------------------------------------------

  ghost predicate Sane(cfg: Config, w: World) {
    w.World? ==>
      && DistinctIds(w.items) && AllBounded(Live(cfg, w), w.items, w.log, w.approvals)
      && FlagsKnown(w.items, w.flagged) && OvertakenKnown(w.items, w.strategy, w.overtaken)
  }

  /** A merging item asks for manual review only if an edit flagged it while it was merging. */
  predicate FlagsKnown(items: seq<Item>, flagged: set<Id>) {
    forall k :: 0 <= k < |items| && items[k].state.Merging? && items[k].workItem.requiresManualReview ==> items[k].id in flagged
  }

  /** An item merges under the manual strategy only if it was merging when the strategy became manual. */
  predicate OvertakenKnown(items: seq<Item>, strategy: MergeStrategy, overtaken: set<Id>) {
    strategy.Manual? ==> forall k :: 0 <= k < |items| && items[k].state.Merging? ==> items[k].id in overtaken
  }

  lemma PayloadsKeepFlags(cfg: Config, items: seq<Item>, next: seq<Item>, flagged: set<Id>, overtaken: set<Id>)
    requires FlagsKnown(items, flagged) && OvertakenKnown(items, cfg.mergeStrategy, overtaken)
    requires AllKeepPayload(cfg, items, next) && SameIds(items, next)
    ensures FlagsKnown(next, flagged) && OvertakenKnown(next, cfg.mergeStrategy, overtaken)
  {
  }

  lemma PollSane(cfg: Config, w: World, e: Event)
    requires w.World? && Sane(cfg, w) && e.PollEvent?
    ensures Sane(cfg, Next(cfg, w, e))
  {
    hide Transitioned, Promoted, PrioritizeMergeActions, LaunchReadyItems, ItemThrows, AllBounded, ParkedOk, Launches, ResolveClaims,
         LaunchTargets, ApprovalsRead, LaunchesIn, FlagsKnown, OvertakenKnown, AllKeepPayload;
    var live := Live(cfg, w);
    var r := ProcessTransitions(live, w.items, w.reevaluate, e.snaps, e.readyIds, e.now);
    if r.Sweep? {
      BoundedParkedOk(live, w.items, w.log, w.approvals);
      PollKeepsBounds(live, w.items, w.reevaluate, e.snaps, e.readyIds, e.now, w.log, w.approvals);
      PollLaunchesExactly(live, w.items, w.reevaluate, e.snaps, e.readyIds, e.now);
      var ready := Promoted(live, Transitioned(live, w.items, w.reevaluate, e.snaps, e.now).items, e.readyIds, e.now);
      LaunchesTarget(ready, r.items, 0);
      ResolveBounded(live, r.items, r.actions, e.crew, e.now, w.log, w.approvals + ApprovalsRead(w.items, e.snaps));
      PollKeepsPayloads(live, w.items, w.reevaluate, e.snaps, e.readyIds, e.now);
      ResolveKeepsPayloads(live, r.items, r.actions, e.crew, e.now);
      PayloadsKeepFlags(live, w.items, r.items, w.flagged, w.overtaken);
      PayloadsKeepFlags(live, r.items, ResolveClaims(r.items, r.actions, e.crew, e.now).items, w.flagged, w.overtaken);
    }
  }

  lemma {:induction false} UnusedId(cfg: Config, id: Id, log: seq<Action>)
    requires forall a :: a in log ==> a.id != id
    ensures Unconcerned(cfg, id, log)
  {
    if log != [] {
      UnusedId(cfg, id, log[1..]);
    }
  }

  lemma NewItemBounded(cfg: Config, workItem: WorkItem, now: int, log: seq<Action>, approved: bool)
    requires Unconcerned(cfg, workItem.id, log)
    ensures Bounded(cfg, NewItem(workItem, now), log, approved)
  {
    hide Count;
    assert Inv(cfg, NewItem(workItem, now), HistoryOf(cfg, workItem.id, log, 0, approved));
  }

  lemma CommitBounded(cfg: Config, it: Item, time: Time, log: seq<Action>, approved: bool)
    requires Bounded(cfg, it, log, approved)
    ensures Bounded(cfg, it.(pr := it.pr.(lastCommitTime := time)), log, approved)
  {
    hide Count;
    var resets :| Inv(cfg, it, HistoryOf(cfg, it.id, log, resets, approved));
    assert Inv(cfg, it.(pr := it.pr.(lastCommitTime := time)), HistoryOf(cfg, it.id, log, resets, approved));
  }

  /** Only the id, and not the rest of the payload, matters to the bounds. */
  lemma EditBounded(cfg: Config, it: Item, workItem: WorkItem, log: seq<Action>, approved: bool)
    requires Bounded(cfg, it, log, approved)
    ensures Bounded(cfg, it.(workItem := workItem), log, approved)
  {
    hide Count;
    var resets :| Inv(cfg, it, HistoryOf(cfg, it.id, log, resets, approved));
    assert Inv(cfg, it.(workItem := workItem), HistoryOf(cfg, it.id, log, resets, approved));
  }

  lemma EditSane(cfg: Config, w: World, workItem: WorkItem)
    requires w.World? && Sane(cfg, w)
    ensures Sane(cfg, Next(cfg, w, PayloadReplaced(workItem)))
  {
    hide Bounded, Find;
    var k := Find(w.items, workItem.id);
    if k >= 0 {
      EditBounded(Live(cfg, w), w.items[k], workItem, w.log, w.items[k].id in w.approvals);
    }
  }

  lemma RemovalSane(cfg: Config, w: World, id: Id)
    requires w.World? && Sane(cfg, w)
    ensures Sane(cfg, Next(cfg, w, ItemRemoved(id)))
  {
    hide Bounded, Find;
    var k := Find(w.items, id);
    var left := WithoutItem(w.items, id);
    assert k >= 0 ==> forall j :: 0 <= j < |left| ==> left[j] == w.items[if j < k then j else j + 1];
  }

  /** Neither the counts nor the bounds depend on the merge strategy. */
  lemma {:induction false} StrategyCounts(cfg: Config, strategy: MergeStrategy, id: Id, log: seq<Action>)
    ensures var other := cfg.(mergeStrategy := strategy);
      Count(other, id, log).reviews == Count(cfg, id, log).reviews && Count(other, id, log).fixers == Count(cfg, id, log).fixers
  {
    if log != [] {
      StrategyCounts(cfg, strategy, id, log[1..]);
    }
  }

  lemma StrategyBounded(cfg: Config, strategy: MergeStrategy, it: Item, log: seq<Action>, approved: bool)
    requires Bounded(cfg, it, log, approved)
    ensures Bounded(cfg.(mergeStrategy := strategy), it, log, approved)
  {
    hide Count;
    var other := cfg.(mergeStrategy := strategy);
    StrategyCounts(cfg, strategy, it.id, log);
    var resets :| Inv(cfg, it, HistoryOf(cfg, it.id, log, resets, approved));
    assert Inv(other, it, HistoryOf(other, it.id, log, resets, approved));
  }

  lemma StrategySane(cfg: Config, w: World, strategy: MergeStrategy)
    requires w.World? && Sane(cfg, w)
    ensures Sane(cfg, Next(cfg, w, StrategySet(strategy)))
  {
    hide Bounded;
    forall k | 0 <= k < |w.items|
      ensures Bounded(cfg.(mergeStrategy := strategy), w.items[k], w.log, w.items[k].id in w.approvals)
    {
      StrategyBounded(Live(cfg, w), strategy, w.items[k], w.log, w.items[k].id in w.approvals);
    }
  }

  lemma ExecuteSane(cfg: Config, w: World, action: Action, answers: Answers, now: int)
    requires w.World? && Sane(cfg, w)
    ensures Sane(cfg, Next(cfg, w, ExecuteEvent(action, answers, now)))
  {
    hide Execute, Bounded, AllBounded, FlagsKnown, OvertakenKnown;
    var live := Live(cfg, w);
    var s := Execute(live, w.items, action, answers, now);
    if s.Sweep? {
      ExecuteKeepsBounds(live, w.items, action, answers, now, w.log, w.approvals);
      PayloadsKeepFlags(live, w.items, s.items, w.flagged, w.overtaken);
    }
  }

  lemma NextSane(cfg: Config, w: World, e: Event)
    requires w.World? && Sane(cfg, w) && FreshId(w, e)
    ensures Sane(cfg, Next(cfg, w, e))
  {
    hide AfterPoll, Execute, Bounded, Find, Count, WithoutItem, WithPayload, FlagsMerging, WithStrategy;
    match e
    case PollEvent(_, _, _, _) => PollSane(cfg, w, e);
    case ExecuteEvent(action, answers, now) => ExecuteSane(cfg, w, action, answers, now);
    case CommitSeen(id, time) =>
      var k := Find(w.items, id);
      if k >= 0 {
        CommitBounded(Live(cfg, w), w.items[k], time, w.log, w.items[k].id in w.approvals);
      }
    case ItemAdded(workItem, now) =>
      UnusedId(Live(cfg, w), workItem.id, w.log);
      NewItemBounded(Live(cfg, w), workItem, now, w.log, workItem.id in w.approvals);
    case ItemRemoved(id) => RemovalSane(cfg, w, id);
    case PayloadReplaced(workItem) => EditSane(cfg, w, workItem);
    case StrategySet(strategy) => StrategySane(cfg, w, strategy);
  }

  lemma {:induction false} RunSane(cfg: Config, w: World, events: seq<Event>)
    requires Sane(cfg, w) && FreshIds(cfg, w, events)
    ensures Sane(cfg, RunFrom(cfg, w, events))
    decreases |events|
  {
    hide Next, Sane, FreshId;
    if w.World? && events != [] {
      NextSane(cfg, w, events[0]);
      RunSane(cfg, Next(cfg, w, events[0]), events[1..]);
    }
  }

  // ---- Main results -----------------------------------------------------------------------

  /** Review launches one item may cost over its life. */
  function MaxReviews(cfg: Config): int {
    cfg.maxReviewRounds * Max(1, cfg.maxFixForwardRetries)
  }

  lemma ReviewBudget(cfg: Config, it: Item, h: History)
    requires Inv(cfg, it, h)
    ensures h.reviews <= MaxReviews(cfg)
  {
    var rounds, resets := cfg.maxReviewRounds, h.resets;
    assert resets + 1 <= Max(1, cfg.maxFixForwardRetries);
    calc {
      h.reviews;
      <= rounds * resets + it.review.round;
      <= rounds * resets + rounds;
      rounds * (resets + 1);
      <= rounds * Max(1, cfg.maxFixForwardRetries);
    }
  }

  /**
   * Main result: over any run that does not crash, whatever GitHub and the workers answer, an item
   * costs a bounded number of review and forward-fixer launches, is retried within its budget,
   * and has used up its merge attempts only when it is stuck.
   */
  lemma RunBudgets(cfg: Config, events: seq<Event>)
    requires FreshIds(cfg, Start(cfg), events)
    ensures var w := RunFrom(cfg, Start(cfg), events);
      w.World? ==> forall k :: 0 <= k < |w.items| ==>
        var it, used := w.items[k], Count(cfg, w.items[k].id, w.log);
        && used.fixers <= MaxFixers(cfg)
        && used.reviews <= MaxReviews(cfg)
        && it.retryCount <= cfg.maxRetries
        && (it.mergeFailCount > 0 && it.mergeFailCount >= cfg.maxMergeRetries ==> it.state.Stuck?)
  {
    hide RunFrom, FreshIds, Count, Next;
    RunSane(cfg, Start(cfg), events);
    var w := RunFrom(cfg, Start(cfg), events);
    if w.World? {
      forall k | 0 <= k < |w.items|
        ensures exists h :: Inv(cfg, w.items[k], h) && h.reviews == Count(cfg, w.items[k].id, w.log).reviews
                         && h.fixers == Count(cfg, w.items[k].id, w.log).fixers && h.reviews <= MaxReviews(cfg)
      {
        var approved := w.items[k].id in w.approvals;
        assert Bounded(Live(cfg, w), w.items[k], w.log, approved);
        StrategyBounded(Live(cfg, w), cfg.mergeStrategy, w.items[k], w.log, approved);
        assert Live(cfg, w).(mergeStrategy := cfg.mergeStrategy) == cfg;
        var resets :| Inv(cfg, w.items[k], HistoryOf(cfg, w.items[k].id, w.log, resets, approved));
        ReviewBudget(cfg, w.items[k], HistoryOf(cfg, w.items[k].id, w.log, resets, approved));
      }
    }
  }

  /**
   * Main result: in any run that does not crash, a merging item has a complete review and, unless
   * reviews are skipped, an approve verdict for it was read earlier in the run. It asks for manual
   * review only if an edit of its file said so while it was merging, and it merges under the manual
   * strategy only if it was merging when the strategy became manual.
   */
  lemma RunMergeGate(cfg: Config, events: seq<Event>)
    requires FreshIds(cfg, Start(cfg), events)
    ensures var w := RunFrom(cfg, Start(cfg), events);
      w.World? ==> forall k :: 0 <= k < |w.items| && w.items[k].state.Merging? ==>
        && w.items[k].review.completed && (cfg.skipReview || w.items[k].id in w.approvals)
        && (w.items[k].workItem.requiresManualReview ==> w.items[k].id in w.flagged)
        && (w.strategy.Manual? ==> w.items[k].id in w.overtaken)
  {
    hide RunFrom, FreshIds, Count, Next;
    RunSane(cfg, Start(cfg), events);
    var w := RunFrom(cfg, Start(cfg), events);
    if w.World? {
      forall k | 0 <= k < |w.items| && w.items[k].state.Merging?
        ensures w.items[k].review.completed && (cfg.skipReview || w.items[k].id in w.approvals)
      {
        assert Bounded(Live(cfg, w), w.items[k], w.log, w.items[k].id in w.approvals);
      }
    }
  }

  /** In any such run no item that left ci-failed for good still carries the flag of a CI failure notification. */
  lemma RunUnflagged(cfg: Config, events: seq<Event>)
    requires FreshIds(cfg, Start(cfg), events)
    ensures var w := RunFrom(cfg, Start(cfg), events); w.World? ==> forall k :: 0 <= k < |w.items| ==> !Flagged(w.items[k])
  {
    hide RunFrom, FreshIds, Count, Next, Flagged;
    RunSane(cfg, Start(cfg), events);
    var w := RunFrom(cfg, Start(cfg), events);
    if w.World? {
      forall k | 0 <= k < |w.items| ensures !Flagged(w.items[k]) {
        assert Bounded(Live(cfg, w), w.items[k], w.log, w.items[k].id in w.approvals);
      }
    }
  }

  // ---- What breaks the gate ---------------------------------------------------------------

  /**
   * The gate does not survive every edit of the work item's file: a merging item keeps it exactly
   * when the new payload asks for no manual review, and the next poll asks for the merge either way.
   */
  lemma GateAfterEdit(cfg: Config, it: Item, workItem: WorkItem, snap: Snapshot, now: int)
    requires it.state.Merging? && GateOpen(cfg, it) && FeedbackSettled(it)
    ensures var next := it.(workItem := workItem);
      && (GateOpen(cfg, next) <==> !workItem.requiresManualReview)
      && (snap.prState.Open? && snap.ciStatus.Pass? ==>
            HandleMerging(cfg, next, snap, now) == Step(next, [Merge(it.id, it.pr.number, cfg.mergeStrategy.Bypass?)]))
  {
  }

  /**
   * The gate does not survive every change of the merge strategy: a merging item keeps it exactly
   * when the new strategy is not manual, and the next poll asks for the merge either way, with the
   * admin flag of the new strategy.
   */
  lemma GateAfterStrategy(cfg: Config, strategy: MergeStrategy, it: Item, snap: Snapshot, now: int)
    requires it.state.Merging? && GateOpen(cfg, it) && FeedbackSettled(it)
    ensures var next := cfg.(mergeStrategy := strategy);
      && (GateOpen(next, it) <==> !strategy.Manual?)
      && (snap.prState.Open? && snap.ciStatus.Pass? ==>
            HandleMerging(next, it, snap, now) == Step(it, [Merge(it.id, it.pr.number, strategy.Bypass?)]))
  {
  }

  /**
   * The gate does not survive a change of the review setting: a merging item keeps its complete
   * review exactly when a review was launched or the reviews are switched off, and the next poll
   * asks for the merge of the others all the same.
   */
  lemma GateAfterSkipReview(cfg: Config, it: Item, skip: bool, snap: Snapshot, now: int)
    requires it.state.Merging? && GateOpen(cfg, it) && FeedbackSettled(it)
    ensures var next := SkipReviewSet(it, skip);
      && (GateOpen(cfg, next) <==> skip || it.review.round > 0)
      && (snap.prState.Open? && snap.ciStatus.Pass? ==>
            HandleMerging(cfg, next, snap, now) == Step(next, [Merge(it.id, it.pr.number, cfg.mergeStrategy.Bypass?)]))
  {
  }
}
