/**
 * Executing an action keeps every item within its bounds and takes no slot, whatever the outside
 * world answers.
 */
module ExecutionFacts {
  import opened OrchestratorTypes
  import opened OrchestratorGuards
  import opened Lifecycle
  import opened LifecycleFacts
  import opened LifecycleSteps
  import opened Poll
  import opened PollFacts
  import opened PollBounds
  import opened Execution

  /** What executing an action keeps of an item. */
  predicate Holds(cfg: Config, it: Item, h: History, next: Item) {
    next.id == it.id && next.workItem == it.workItem && Inv(cfg, next, h) && Evolves(cfg, it, next)
  }

  /** The states executions move items to. */
  predicate ExecutionTarget(s: State) {
    s.Ready? || s.Stuck? || s.Blocked? || s.CiPending? || s.CiPassed? || s.Merged? || s.Rebasing?
  }

  predicate SameStanding(it: Item, mid: Item) {
    mid.id == it.id && mid.workItem == it.workItem && mid.state == it.state
  }

  lemma TransitionHolds(cfg: Config, it: Item, h: History, mid: Item, to: State, now: int)
    requires SameStanding(it, mid) && Inv(cfg, mid, h) && ExecutionTarget(to)
    ensures var move := Transition(mid, to, now); move.Moved? ==> Holds(cfg, it, h, move.item)
  {
    hide Inv, Evolves;
    TransitionInv(cfg, h, mid, to, now);
    TransitionEvolves(cfg, mid, to, now);
    SameEvolves(cfg, it, mid, Transition(mid, to, now));
  }

  lemma TransitionInv(cfg: Config, h: History, it: Item, to: State, now: int)
    requires Inv(cfg, it, h) && ExecutionTarget(to)
    ensures var move := Transition(it, to, now); move.Moved? ==> Inv(cfg, move.item, h)
  {
  }

  lemma TransitionEvolves(cfg: Config, it: Item, to: State, now: int)
    requires ExecutionTarget(to)
    ensures var move := Transition(it, to, now); move.Moved? ==> move.item.id == it.id && Evolves(cfg, it, move.item)
  {
  }

  lemma SameEvolves(cfg: Config, it: Item, mid: Item, move: Move)
    requires SameStanding(it, mid) && (move.Moved? ==> Evolves(cfg, mid, move.item))
    ensures move.Moved? ==> Evolves(cfg, it, move.item) && move.item.workItem == it.workItem
  {
  }

  lemma StayHolds(cfg: Config, it: Item, h: History, mid: Item)
    requires SameStanding(it, mid) && Inv(cfg, mid, h)
    ensures Holds(cfg, it, h, mid)
  {
  }

  lemma LaunchFailedHolds(cfg: Config, it: Item, h: History, mid: Item, now: int)
    requires SameStanding(it, mid) && Inv(cfg, mid, h)
    ensures var move := LaunchFailed(cfg, mid, now); move.Moved? ==> Holds(cfg, it, h, move.item)
  {
    hide Transition, Holds;
    if mid.retryCount < cfg.maxRetries {
      TransitionHolds(cfg, it, h, mid.(retryCount := mid.retryCount + 1), Ready, now);
    } else {
      TransitionHolds(cfg, it, h, mid, Stuck, now);
    }
  }

  lemma LaunchWorkerHolds(cfg: Config, it: Item, h: History, mid: Item, delivers: bool, answer: WorkerAnswer, now: int)
    requires SameStanding(it, mid) && Inv(cfg, mid, h)
    ensures var move := LaunchWorker(cfg, mid, delivers, answer, now); move.Moved? ==> Holds(cfg, it, h, move.item)
  {
    hide Transition, Holds, LaunchFailed;
    match answer
    case NoWorker =>
      var counted := if mid.retryCount < cfg.maxRetries then mid.(retryCount := mid.retryCount + 1) else mid;
      LaunchFailedHolds(cfg, it, h, mid, now);
      LaunchFailedHolds(cfg, it, h, counted, now);
    case LaunchThrew => LaunchFailedHolds(cfg, it, h, mid, now);
    case ExistingPr(pr) =>
      var tracked := mid.(pr := mid.pr.(number := Ref(pr)));
      TransitionHolds(cfg, it, h, tracked, CiPending, now);
      LaunchFailedHolds(cfg, it, h, tracked, now);
    case Started(workspace, deliveryThrew) =>
      var started := mid.(session := mid.session.(workspace := workspace));
      LaunchFailedHolds(cfg, it, h, started, now);
      StayHolds(cfg, it, h, FeedbackDelivered(started));
  }

  lemma ExecuteLaunchHolds(cfg: Config, items: seq<Item>, it: Item, h: History, base: Ref, answers: Answers, now: int)
    requires Inv(cfg, it, h)
    ensures var move := ExecuteLaunch(cfg, items, it, base, answers, now); move.Moved? ==> Holds(cfg, it, h, move.item)
  {
    hide Transition, Holds, LaunchWorker, BaseGone;
    TransitionHolds(cfg, it, h, it, Blocked, now);
    if answers.pickup.SkipWithPr? {
      TransitionHolds(cfg, it, h, it.(pr := it.pr.(number := Ref(answers.pickup.pr))), CiPending, now);
    }
    var unstacked := if BaseGone(items, base) then it.(pr := it.pr.(baseBranch := Absent)) else it;
    LaunchWorkerHolds(cfg, it, h, unstacked.(ci := it.ci.(needsFix := false)), it.ci.needsFix || HandoffPending(it), answers.worker, now);
  }

  /** A failed merge is counted, and the last one allowed leaves the item stuck. */
  lemma MergeFailedHolds(cfg: Config, it: Item, h: History, mid: Item, now: int)
    requires SameStanding(it, mid) && Inv(cfg, mid, h)
    ensures var move := MergeFailed(cfg, mid, now);
      move.Moved? ==> Holds(cfg, it, h, move.item) && (move.item.mergeFailCount >= cfg.maxMergeRetries <==> move.item.state.Stuck?)
  {
  }

  lemma MergedHolds(cfg: Config, it: Item, h: History, mid: Item, merged: Item, closed: bool, commit: Ref)
    requires Inv(cfg, mid, h) && Holds(cfg, it, h, merged)
    ensures Holds(cfg, it, h, CloseIf(merged, closed))
    ensures var settled := CloseIf(merged, closed);
      Holds(cfg, it, h, settled.(repair := settled.repair.(mergeCommit := OrRef(commit, settled.repair.mergeCommit))))
  {
  }

  lemma AttemptMergeHolds(cfg: Config, items: seq<Item>, it: Item, h: History, mid: Item, expected: Base, answers: Answers, now: int)
    requires SameStanding(it, mid) && Inv(cfg, mid, h)
    ensures var move := AttemptMerge(cfg, items, mid, expected, answers, now); move.Moved? ==> Holds(cfg, it, h, move.item)
  {
    hide Transition, Holds, MergeFailed, WasRecentlyUnstacked;
    TransitionHolds(cfg, it, h, mid, CiPassed, now);
    StayHolds(cfg, it, h, mid);
    TransitionHolds(cfg, it, h, mid.(rebase := mid.rebase.(requested := false)), CiPending, now);
    TransitionHolds(cfg, it, h, mid, CiPending, now);
    MergeFailedHolds(cfg, it, h, mid, now);
    TransitionHolds(cfg, it, h, mid.(mergeFailCount := 0), Merged, now);
    var merged := Transition(mid.(mergeFailCount := 0), Merged, now);
    if merged.Moved? {
      MergedHolds(cfg, it, h, mid, merged.item, answers.closed, answers.merge.commit);
    }
  }

  lemma ExecuteMergeHolds(cfg: Config, items: seq<Item>, it: Item, h: History, pr: Ref, answers: Answers, now: int)
    requires Inv(cfg, it, h)
    ensures var move := ExecuteMerge(cfg, items, it, pr, answers, now); move.Moved? ==> Holds(cfg, it, h, move.item)
  {
    hide Transition, Holds, AttemptMerge, BaseGone;
    var expected := ExpectedBase(items, it);
    StayHolds(cfg, it, h, it);
    AttemptMergeHolds(cfg, items, it, h, it, expected, answers, now);
    AttemptMergeHolds(cfg, items, it, h, Stack(it, expected), expected, answers, now);
    TransitionHolds(cfg, it, h, Stack(it, expected), CiPending, now);
    TransitionHolds(cfg, it, h, Stack(it, DefaultBranch), CiPending, now);
    TransitionHolds(cfg, it, h, it, CiPassed, now);
    TransitionHolds(cfg, it, h, it, Merged, now);
    var merged := Transition(it, Merged, now);
    if merged.Moved? {
      MergedHolds(cfg, it, h, it, merged.item, answers.closed, Absent);
    }
  }

  lemma ExecuteDaemonRebaseHolds(cfg: Config, it: Item, h: History, escalate: bool, answers: Answers, now: int)
    requires Inv(cfg, it, h)
    ensures var move := ExecuteDaemonRebase(cfg, it, escalate, answers, now); move.Moved? ==> Holds(cfg, it, h, move.item)
  {
    hide Transition, Holds;
    var handed := it.(rebase := it.rebase.(workspace := answers.launched, attempts := it.rebase.attempts + 1));
    TransitionHolds(cfg, it, h, it, CiPending, now);
    StayHolds(cfg, it, h, it);
    TransitionHolds(cfg, it, h, it, Stuck, now);
    TransitionHolds(cfg, it, h, handed, Rebasing, now);
    StayHolds(cfg, it, h, handed);
  }

  /** Main result for one item: no execution breaks its bounds. */
  lemma ExecuteActionHolds(cfg: Config, items: seq<Item>, it: Item, h: History, action: Action, answers: Answers, now: int)
    requires Inv(cfg, it, h)
    ensures var move := ExecuteAction(cfg, items, it, action, answers, now); move.Moved? ==> Holds(cfg, it, h, move.item)
  {
    hide Transition, ExecuteLaunch, ExecuteMerge, ExecuteDaemonRebase, ExecuteNotifyCiFailure, ExecuteRetry, ExecuteSendMessage,
      CloseIf, Holds, Inv;
    match action {
      case Launch(_, base) => ExecuteLaunchHolds(cfg, items, it, h, base, answers, now);
      case Merge(_, pr, _) => ExecuteMergeHolds(cfg, items, it, h, pr, answers, now);
      case DaemonRebase(_, escalate) => ExecuteDaemonRebaseHolds(cfg, it, h, escalate, answers, now);
      case NotifyCiFailure(_, _) => ExecuteNotifyHolds(cfg, it, h, answers.reachable, now);
      case _ => QuietActionHolds(cfg, items, it, h, action, answers, now);
    }
  }

  lemma QuietActionHolds(cfg: Config, items: seq<Item>, it: Item, h: History, action: Action, answers: Answers, now: int)
    requires Inv(cfg, it, h) && !action.Launch? && !action.Merge? && !action.DaemonRebase? && !action.NotifyCiFailure?
    ensures var move := ExecuteAction(cfg, items, it, action, answers, now); move.Moved? && Holds(cfg, it, h, move.item)
  {
    hide Transition, ExecuteLaunch, ExecuteMerge, ExecuteDaemonRebase, ExecuteNotifyCiFailure, Holds, Inv;
    QuietExecution(cfg, it, h, ExecuteAction(cfg, items, it, action, answers, now).item);
  }

  lemma ExecuteNotifyHolds(cfg: Config, it: Item, h: History, reachable: bool, now: int)
    requires Inv(cfg, it, h)
    ensures var move := ExecuteNotifyCiFailure(it, reachable, now); move.Moved? ==> Holds(cfg, it, h, move.item)
  {
    hide Transition, Holds;
    StayHolds(cfg, it, h, it);
    TransitionHolds(cfg, it, h, it.(ci := it.ci.(needsFix := true), session := it.session.(workspace := NoWorkspace)), Ready, now);
  }

  /** The executions that only record workspaces and deliveries. */
  lemma QuietExecution(cfg: Config, it: Item, h: History, next: Item)
    requires Inv(cfg, it, h)
    requires next == it.(session := next.session, rebase := next.rebase, review := next.review, repair := next.repair,
                         feedback := next.feedback, pr := next.pr)
    requires next.session.parked == it.session.parked && next.review == it.review.(workspace := next.review.workspace)
    requires next.repair.failCount == it.repair.failCount
    ensures Holds(cfg, it, h, next)
  {
  }

  /** Main result: executing an action keeps every item within its bounds and takes no slot. */
  lemma ExecuteKeepsBounds(cfg: Config, items: seq<Item>, action: Action, answers: Answers, now: int, log: seq<Action>, approvals: set<Id>)
    requires AllBounded(cfg, items, log, approvals)
    requires Execute(cfg, items, action, answers, now).Sweep?
    ensures var s := Execute(cfg, items, action, answers, now);
      SameIds(items, s.items) && AllEvolve(cfg, items, s.items) && AllBounded(cfg, s.items, log, approvals)
  {
    hide Count, Inv, ExecuteAction, Merges, Restack, Find;
    var s := Execute(cfg, items, action, answers, now);
    var k := Find(items, action.id);
    forall j | 0 <= j < |items|
      ensures s.items[j].id == items[j].id && Evolves(cfg, items[j], s.items[j]) && Bounded(cfg, s.items[j], log, items[j].id in approvals)
    {
      assert Bounded(cfg, items[j], log, items[j].id in approvals);
      var resets :| Inv(cfg, items[j], HistoryOf(cfg, items[j].id, log, resets, items[j].id in approvals));
      var h := HistoryOf(cfg, items[j].id, log, resets, items[j].id in approvals);
      var mid := items[j];
      if j == k {
        ExecuteActionHolds(cfg, items, items[j], h, action, answers, now);
        mid := ExecuteAction(cfg, items, items[j], action, answers, now).item;
      }
      RestackHolds(cfg, mid, h, action.id, answers.merge.restacked);
      assert s.items[j] == mid || s.items[j] == Restack(mid, action.id, answers.merge.restacked);
      assert Inv(cfg, s.items[j], HistoryOf(cfg, s.items[j].id, log, resets, items[j].id in approvals));
    }
  }

  lemma RestackHolds(cfg: Config, it: Item, h: History, id: Id, restacked: set<Id>)
    requires Inv(cfg, it, h)
    ensures var next := Restack(it, id, restacked);
      next.id == it.id && next.state == it.state && next.workItem == it.workItem && Inv(cfg, next, h)
  {
  }

  // ---- When an execution runs off the table ------------------------------------------------

  /** The state in which the lifecycle asks for an action that moves the item. */
  predicate AtHome(it: Item, action: Action) {
    match action
    case Launch(_, _) => it.state.Launching?
    case Merge(_, _, _) => it.state.Merging?
    case NotifyCiFailure(_, _) => it.state.CiFailed?
    case DaemonRebase(_, _) => it.state.CiPending? || it.state.CiFailed? || it.state.ReviewPending?
    case _ => true
  }

  /** In that state no execution throws, whatever the outside world answers. */
  lemma NeverThrowsAtHome(cfg: Config, items: seq<Item>, it: Item, action: Action, answers: Answers, now: int)
    requires AtHome(it, action)
    ensures ExecuteAction(cfg, items, it, action, answers, now).Moved?
  {
    hide Enter, BaseGone, WasRecentlyUnstacked;
  }

  /** The rebase attempts are used up and neither the daemon nor a live worker takes the rebase. */
  predicate GivesUp(cfg: Config, it: Item, escalate: bool, answers: Answers) {
    && it.rebase.attempts >= cfg.maxRebaseAttempts && !answers.rebased
    && !(!escalate && answers.reachable && it.session.workspace.Workspace?)
  }

  /**
   * In any state a rebase request throws exactly when the item cannot get stuck from there, its
   * rebase attempts are used up, and neither the daemon nor a live worker takes the rebase.
   */
  lemma DaemonRebaseThrowsExactly(cfg: Config, it: Item, escalate: bool, answers: Answers, now: int)
    ensures ExecuteDaemonRebase(cfg, it, escalate, answers, now).Illegal? <==>
      && !it.state.Stuck? && !Legal(it.state, Stuck)
      && it.rebase.attempts >= cfg.maxRebaseAttempts
      && !(answers.rebased && (it.state.CiPending? || Legal(it.state, CiPending)))
      && !(!escalate && answers.reachable && it.session.workspace.Workspace?)
  {
    hide Enter;
  }

  /**
   * The recovery of a stalled review asks for a rebase and moves on in the same poll: the request is
   * executed while the new review runs, a state an item cannot get stuck in.
   */
  lemma StalledReviewLeavesHome(cfg: Config, w: WorkItem, now: int)
    requires cfg.inboxWaitExpireMs > 0 && now > cfg.inboxWaitExpireMs && cfg.maxReviewRounds > 0 && !cfg.skipReview
    requires now >= cfg.rebaseRetryStaleMs
    ensures var it := NewItem(w, 0);
      var waiting := it.(state := ReviewPending);
      var snap := NoSnapshot().(isMergeable := No, hasReviewerComment := No);
      var step := NudgeOrRecoverReview(cfg, waiting, snap, [], now);
      step.Step? && step.item.state.Reviewing? && DaemonRebase(w.id, false) in step.actions
  {
    var it := NewItem(w, 0);
    var waiting := it.(state := ReviewPending);
    var snap := NoSnapshot().(isMergeable := No, hasReviewerComment := No);
    assert PlanRebaseConflictAction(cfg, waiting, now).actions == [DaemonRebase(w.id, false)];
    assert ([] + [DaemonRebase(w.id, false)])[0] == DaemonRebase(w.id, false);
  }
}
