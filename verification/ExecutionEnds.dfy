/**
 * What executing an action makes of its item, answer by answer: the merge of a merging item, what a
 * merge does to the other items, and the launch of a worker (core/orchestrator-actions.ts).
 */
module ExecutionEnds {
  import opened OrchestratorTypes
  import opened OrchestratorGuards
  import opened Lifecycle
  import opened Poll
  import opened PollFacts
  import opened Execution

  // ---- The merge of a merging item --------------------------------------------------------

  /** The item's pull request is in: done, or past its merge and not open again for a repair. */
  predicate PastItsMerge(s: State) {
    s.Done? || s.Merged? || s.ForwardFixPending? || s.FixForwardFailed?
  }

  /** The item is stacked on the branch of a tracked item that has not merged. */
  predicate StackedOnOpen(items: seq<Item>, it: Item) {
    exists k :: 0 <= k < |items| && it.pr.baseBranch == Ref(items[k].id) && !PastItsMerge(items[k].state)
  }

  /** The branch its pull request should target. */
  function RightBase(items: seq<Item>, it: Item): Base {
    if StackedOnOpen(items, it) then DependencyBranch(it.pr.baseBranch.n) else DefaultBranch
  }

  /** The pull request targets the right branch, or nothing looks its target up. */
  predicate OnRightBase(items: seq<Item>, it: Item, base: BaseAnswer) {
    base.Unchecked? || base == BaseIs(RightBase(items, it))
  }

  /** The pull request targets another branch. */
  predicate OnWrongBase(items: seq<Item>, it: Item, base: BaseAnswer) {
    base.BaseIs? && base.base != RightBase(items, it)
  }

  /** There is a pull request to merge. */
  predicate HasPr(it: Item, pr: Ref) {
    pr.Ref? || it.pr.number.Ref?
  }

  /** GitHub is asked to merge. */
  predicate Tries(items: seq<Item>, it: Item, pr: Ref, answers: Answers) {
    HasPr(it, pr) && !StackedOnOpen(items, it) && OnRightBase(items, it, answers.merge.base)
  }

  /** One of its dependencies has merged, so its branch may hold commits that were squashed away. */
  predicate DependencyMerged(items: seq<Item>, it: Item) {
    exists k :: 0 <= k < |items| && items[k].id in it.workItem.dependencies && PastItsMerge(items[k].state)
  }

  /** The refused merge is one that a rebase may help: a conflict, squashed commits, or a protected branch. */
  predicate Rebasable(items: seq<Item>, it: Item, answers: Answers) {
    !answers.merge.mergeable || DependencyMerged(items, it) || answers.merge.blocked
  }

  predicate GoesThrough(items: seq<Item>, it: Item, pr: Ref, answers: Answers) {
    Tries(items, it, pr, answers) && answers.merge.merged
  }

  /** The refused merge counts. */
  predicate Counts(items: seq<Item>, it: Item, pr: Ref, answers: Answers) {
    Tries(items, it, pr, answers) && !answers.merge.merged && !Rebasable(items, it, answers)
  }

  /** The pull request was moved to the right branch, by this step or by GitHub when its dependency merged. */
  predicate Moves(items: seq<Item>, it: Item, answers: Answers) {
    && OnWrongBase(items, it, answers.merge.base)
    && (answers.merge.retargeted || (StackedOnOpen(items, it) && answers.merge.base == BaseIs(DefaultBranch)))
  }

  /** The state a merging item ends in. */
  function MergeTarget(cfg: Config, items: seq<Item>, it: Item, pr: Ref, answers: Answers): State {
    if !HasPr(it, pr) || answers.merge.base.Unreachable? || answers.merge.base.BaseUnknown? then Merging
    else if answers.merge.base.AlreadyMerged? || GoesThrough(items, it, pr, answers) then Merged
    else if Moves(items, it, answers) then CiPending
    else if Tries(items, it, pr, answers) && Rebasable(items, it, answers) then CiPending
    else if Counts(items, it, pr, answers) && it.mergeFailCount + 1 >= cfg.maxMergeRetries then Stuck
    else CiPassed
  }

  /** The base branch it ends with: the right one once it was looked up, and none once it was moved off its stack. */
  function BaseAfter(items: seq<Item>, it: Item, pr: Ref, answers: Answers): Ref {
    if !HasPr(it, pr) || !answers.merge.base.BaseIs? then it.pr.baseBranch
    else if !OnWrongBase(items, it, answers.merge.base) || answers.merge.retargeted then
      (if StackedOnOpen(items, it) then it.pr.baseBranch else Absent)
    else if Moves(items, it, answers) then Absent
    else it.pr.baseBranch
  }

  lemma GoneExactly(items: seq<Item>, it: Item)
    requires DistinctIds(items)
    ensures StackedOnOpen(items, it) <==> it.pr.baseBranch.Ref? && !BaseGone(items, it.pr.baseBranch)
    ensures RightBase(items, it) == ExpectedBase(items, it)
    ensures DependencyMerged(items, it) <==> WasRecentlyUnstacked(items, it)
  {
    hide DistinctIds;
    if it.pr.baseBranch.Ref? {
      var k := Find(items, it.pr.baseBranch.n);
      forall j | 0 <= j < |items| && it.pr.baseBranch == Ref(items[j].id) ensures j == k {
        FindUnique(items, j);
      }
    }
    assert forall s: State :: PastItsMerge(s) <==> DepDone(s);
  }

  /**
   * Main result: where the merge of a merging item ends, for every answer. It is merged exactly when
   * GitHub says so already, or when it is not stacked on an open item, targets the default branch or
   * is not looked up, and the merge goes through; stacked on an open item it goes back to ci-passed.
   * With it the merge commit, the failure count, the base branch and the workspace it is left with.
   */
  lemma MergeEndsExactly(cfg: Config, items: seq<Item>, it: Item, pr: Ref, answers: Answers, now: int)
    requires it.state.Merging? && DistinctIds(items)
    ensures var move := ExecuteMerge(cfg, items, it, pr, answers, now);
      && move.Moved? && move.item.state == MergeTarget(cfg, items, it, pr, answers)
      && (move.item.state.Merging? ==> move.item == it)
      && move.item.pr == it.pr.(baseBranch := BaseAfter(items, it, pr, answers))
      && LeftBy(cfg, items, it, pr, answers, move.item)
    ensures var next, base := ExecuteMerge(cfg, items, it, pr, answers, now).item, answers.merge.base;
      next.state.Merged? <==> HasPr(it, pr) && (base.AlreadyMerged? || MergesIntoDefault(items, it, answers))
    ensures HasPr(it, pr) && StackedOnOpen(items, it) && OnRightBase(items, it, answers.merge.base) ==>
      ExecuteMerge(cfg, items, it, pr, answers, now).item.state.CiPassed?
  {
    MergeEnds(cfg, items, it, pr, answers, now);
  }

  /** The merge into the default branch went through, and nothing the item is stacked on is still open. */
  predicate MergesIntoDefault(items: seq<Item>, it: Item, answers: Answers) {
    && !StackedOnOpen(items, it) && answers.merge.merged
    && (answers.merge.base.Unchecked? || answers.merge.base == BaseIs(DefaultBranch))
  }

  lemma MergeEnds(cfg: Config, items: seq<Item>, it: Item, pr: Ref, answers: Answers, now: int)
    requires it.state.Merging? && DistinctIds(items)
    ensures var move := ExecuteMerge(cfg, items, it, pr, answers, now);
      && move.Moved? && move.item.state == MergeTarget(cfg, items, it, pr, answers)
      && (move.item.state.Merging? ==> move.item == it)
      && move.item.pr == it.pr.(baseBranch := BaseAfter(items, it, pr, answers))
      && LeftBy(cfg, items, it, pr, answers, move.item)
  {
    hide Enter, BaseGone, ExpectedBase, StackedOnOpen, DependencyMerged, DistinctIds, RightBase, Retarget, AttemptMerge,
         WasRecentlyUnstacked, Counts, GoesThrough;
    GoneExactly(items, it);
    var expected := ExpectedBase(items, it);
    RightBaseIs(items, it);
    if HasPr(it, pr) {
      match answers.merge.base
      case BaseIs(actual) =>
        if actual != expected {
          WrongBaseEnds(cfg, items, it, pr, answers, now);
        } else {
          StackSame(it, expected);
          StackKeeps(items, it, Stack(it, expected));
          AttemptEnds(cfg, items, it, Stack(it, expected), pr, answers, now);
          RightBaseStays(items, it, pr, answers);
        }
      case Unchecked => AttemptEnds(cfg, items, it, it, pr, answers, now);
      case _ => NoAttemptEnds(cfg, items, it, pr, answers, now);
    } else {
      NoAttemptEnds(cfg, items, it, pr, answers, now);
    }
  }

  /** What a merge leaves of the item besides its state and its base branch. */
  predicate LeftBy(cfg: Config, items: seq<Item>, it: Item, pr: Ref, answers: Answers, next: Item) {
    && next.id == it.id
    && next.mergeFailCount == (if GoesThrough(items, it, pr, answers) then 0
                               else if Counts(items, it, pr, answers) then it.mergeFailCount + 1 else it.mergeFailCount)
    && next.repair == (if GoesThrough(items, it, pr, answers) && cfg.fixForward && answers.merge.commit.Ref? then
                         it.repair.(mergeCommit := answers.merge.commit) else it.repair)
    && next.session.workspace == (if next.state.Merged? && answers.closed then NoWorkspace else it.session.workspace)
    && next.workItem == it.workItem && next.review == it.review && next.feedback == it.feedback && next.retryCount == it.retryCount
  }

  /** No pull request, no answer, or one that is in already. */
  lemma NoAttemptEnds(cfg: Config, items: seq<Item>, it: Item, pr: Ref, answers: Answers, now: int)
    requires it.state.Merging?
    requires !HasPr(it, pr) || answers.merge.base.Unreachable? || answers.merge.base.BaseUnknown? || answers.merge.base.AlreadyMerged?
    ensures var move := ExecuteMerge(cfg, items, it, pr, answers, now);
      && move.Moved? && move.item.state == MergeTarget(cfg, items, it, pr, answers)
      && (move.item.state.Merging? ==> move.item == it)
      && move.item.pr == it.pr.(baseBranch := BaseAfter(items, it, pr, answers))
      && LeftBy(cfg, items, it, pr, answers, move.item)
  {
    hide Enter, ExpectedBase, StackedOnOpen, RightBase, AttemptMerge, Retarget;
    EnterKeeps(it, Merged, now);
  }

  lemma WrongBaseEnds(cfg: Config, items: seq<Item>, it: Item, pr: Ref, answers: Answers, now: int)
    requires it.state.Merging? && HasPr(it, pr) && OnWrongBase(items, it, answers.merge.base)
    ensures var move := Retarget(it, answers.merge.base.base, RightBase(items, it), answers.merge.retargeted, now);
      && move.Moved? && move.item.state == MergeTarget(cfg, items, it, pr, answers)
      && move.item.pr == it.pr.(baseBranch := BaseAfter(items, it, pr, answers))
      && LeftBy(cfg, items, it, pr, answers, move.item)
  {
    hide StackedOnOpen, RightBase, Retarget, DependencyMerged;
    RightBaseIs(items, it);
    RetargetEnds(it, answers.merge.base.base, RightBase(items, it), answers.merge.retargeted, now);
  }

  lemma RightBaseStays(items: seq<Item>, it: Item, pr: Ref, answers: Answers)
    requires HasPr(it, pr) && answers.merge.base == BaseIs(RightBase(items, it))
    ensures BaseAfter(items, it, pr, answers) == Stack(it, RightBase(items, it)).pr.baseBranch
  {
    hide StackedOnOpen;
    RightBaseIs(items, it);
  }

  lemma RightBaseIs(items: seq<Item>, it: Item)
    ensures var base := RightBase(items, it);
      && (StackedOnOpen(items, it) <==> base.DependencyBranch?) && !base.OtherBranch?
      && (base.DependencyBranch? ==> it.pr.baseBranch == Ref(base.dep))
  {
  }

  lemma EnterKeeps(it: Item, to: State, now: int)
    requires to.Merged? || to.CiPassed? || to.CiPending? || to.Stuck?
    ensures var next := Enter(it, to, now);
      && next == it.(state := to, lastTransition := now, session := next.session, ci := next.ci, rebase := next.rebase)
      && next.session.workspace == it.session.workspace
  {
  }

  lemma StackSame(it: Item, base: Base)
    requires base.DependencyBranch? ==> it.pr.baseBranch == Ref(base.dep)
    ensures Stack(it, base) == it.(pr := it.pr.(baseBranch := if base.DependencyBranch? then it.pr.baseBranch else Absent))
  {
  }

  lemma StackKeeps(items: seq<Item>, it: Item, next: Item)
    requires next == it.(pr := next.pr)
    ensures WasRecentlyUnstacked(items, next) <==> WasRecentlyUnstacked(items, it)
  {
  }

  lemma RetargetEnds(it: Item, actual: Base, expected: Base, retargeted: bool, now: int)
    requires it.state.Merging? && actual != expected && (expected.DependencyBranch? ==> it.pr.baseBranch == Ref(expected.dep))
    ensures var move := Retarget(it, actual, expected, retargeted, now);
      var off := !retargeted && expected.DependencyBranch? && actual.DefaultBranch?;
      && move.Moved? && move.item.state == (if retargeted || off then CiPending else CiPassed)
      && move.item.pr == it.pr.(baseBranch := if off || (retargeted && !expected.DependencyBranch?) then Absent else it.pr.baseBranch)
      && move.item == it.(state := move.item.state, lastTransition := now, pr := move.item.pr, session := move.item.session,
                          ci := move.item.ci, rebase := move.item.rebase)
      && move.item.session.workspace == it.session.workspace
  {
  }

  /** executeMerge once the base is settled: `mid` is the item with its base branch brought up to date. */
  lemma AttemptEnds(cfg: Config, items: seq<Item>, it: Item, mid: Item, pr: Ref, answers: Answers, now: int)
    requires it.state.Merging? && mid == it.(pr := mid.pr) && HasPr(it, pr) && OnRightBase(items, it, answers.merge.base)
    requires (DependencyMerged(items, it) <==> WasRecentlyUnstacked(items, mid))
    ensures var expected := RightBase(items, it);
      var move := AttemptMerge(cfg, items, mid, expected, answers, now);
      && move.Moved? && move.item.state == MergeTarget(cfg, items, it, pr, answers)
      && move.item.pr == mid.pr && LeftBy(cfg, items, it, pr, answers, move.item)
  {
    hide Enter, StackedOnOpen, DependencyMerged, WasRecentlyUnstacked, RightBase;
    RightBaseIs(items, it);
    EnterKeeps(mid, CiPassed, now);
    EnterKeeps(mid, CiPending, now);
    EnterKeeps(mid.(rebase := mid.rebase.(requested := false)), CiPending, now);
    var counted := mid.(mergeFailCount := mid.mergeFailCount + 1);
    EnterKeeps(counted, CiPassed, now);
    EnterKeeps(counted, Stuck, now);
    EnterKeeps(mid.(mergeFailCount := 0), Merged, now);
  }

  // ---- The launch of a launching item ------------------------------------------------------

  /** The base the launch was asked for is not the branch of a tracked item that has not merged. */
  predicate BaseHasGone(items: seq<Item>, base: Ref) {
    base.Ref? && forall k :: 0 <= k < |items| && items[k].id == base.n ==> PastItsMerge(items[k].state)
  }

  /** An item without work for its worker is only tracked when its pull request is open already. */
  predicate OnlyTracked(it: Item, answers: Answers) {
    answers.pickup.SkipWithPr? && !it.ci.needsFix && !it.feedback.needsResponse
  }

  /** The launch fails: no worker, an error, or a first message that could not be delivered. */
  predicate FailsToStart(it: Item, answers: Answers) {
    || answers.worker.NoWorker? || answers.worker.LaunchThrew?
    || (answers.worker.Started? && answers.worker.deliveryThrew && (it.ci.needsFix || HandoffPending(it)))
  }

  /** The state a launching item ends in. */
  function LaunchTarget(cfg: Config, it: Item, answers: Answers): State {
    if answers.pickup.Refuse? then Blocked
    else if OnlyTracked(it, answers) || answers.worker.ExistingPr? then CiPending
    else if !FailsToStart(it, answers) then Launching
    else if it.retryCount < cfg.maxRetries then Ready
    else Stuck
  }

  /** The pull request that turned up. */
  function PrFound(it: Item, answers: Answers): Ref {
    if answers.pickup.Refuse? then it.pr.number
    else if OnlyTracked(it, answers) then Ref(answers.pickup.pr)
    else if answers.worker.ExistingPr? then Ref(answers.worker.pr)
    else it.pr.number
  }

  lemma BaseGoneExactly(items: seq<Item>, base: Ref)
    requires DistinctIds(items)
    ensures BaseHasGone(items, base) <==> BaseGone(items, base)
  {
    hide DistinctIds;
    if base.Ref? {
      var k := Find(items, base.n);
      forall j | 0 <= j < |items| && items[j].id == base.n ensures j == k {
        FindUnique(items, j);
      }
    }
  }

  /**
   * Main result: where the launch of a launching item ends, for every answer: blocked, tracked by
   * its pull request, at work in its workspace with its message delivered, or retried while retries
   * last. A retry is counted, the order to fix CI is given once, and a base that is gone is dropped.
   */
  lemma LaunchEndsExactly(cfg: Config, items: seq<Item>, it: Item, base: Ref, answers: Answers, now: int)
    requires it.state.Launching? && DistinctIds(items)
    ensures var move := ExecuteLaunch(cfg, items, it, base, answers, now);
      var asked := !answers.pickup.Refuse? && !OnlyTracked(it, answers);
      var starts := asked && answers.worker.Started?;
      && move.Moved? && move.item.id == it.id && move.item.state == LaunchTarget(cfg, it, answers)
      && move.item.retryCount == it.retryCount + (if move.item.state.Ready? then 1 else 0)
      && move.item.pr == it.pr.(number := PrFound(it, answers), baseBranch := if asked && BaseHasGone(items, base) then Absent else it.pr.baseBranch)
      && move.item.ci.needsFix == (it.ci.needsFix && !asked)
      && move.item.session.workspace == (if starts then answers.worker.workspace else it.session.workspace)
      && move.item.feedback == (if starts && !FailsToStart(it, answers) && it.feedback.needsResponse then
                                  Feedback(false, NoMessage, false, it.feedback.batch) else it.feedback)
      && move.item.workItem == it.workItem && move.item.review == it.review && move.item.repair == it.repair
      && move.item.mergeFailCount == it.mergeFailCount
  {
    hide BaseGone, BaseHasGone, DistinctIds, LaunchWorker, Enter;
    BaseGoneExactly(items, base);
    if answers.pickup.Refuse? || OnlyTracked(it, answers) {
      EnterFromLaunch(it, Blocked, now);
      EnterFromLaunch(it.(pr := it.pr.(number := PrFound(it, answers))), CiPending, now);
    } else {
      var mid := (if BaseGone(items, base) then it.(pr := it.pr.(baseBranch := Absent)) else it).(ci := it.ci.(needsFix := false));
      WorkerEnds(cfg, it, mid, answers, now);
    }
  }

  lemma EnterFromLaunch(it: Item, to: State, now: int)
    requires to.Blocked? || to.CiPending?
    ensures var next := Enter(it, to, now);
      && next == it.(state := to, lastTransition := now, session := next.session, ci := next.ci, rebase := next.rebase)
      && next.session.workspace == it.session.workspace && next.ci.needsFix == it.ci.needsFix
  {
  }

  lemma WorkerEnds(cfg: Config, it: Item, mid: Item, answers: Answers, now: int)
    requires it.state.Launching? && mid == it.(pr := mid.pr, ci := it.ci.(needsFix := false))
    ensures var delivers := it.ci.needsFix || HandoffPending(it);
      var move := LaunchWorker(cfg, mid, delivers, answers.worker, now);
      && move.Moved? && move.item.id == it.id
      && move.item.state == (if answers.worker.ExistingPr? then CiPending else if !FailsToStart(it, answers) then Launching
                             else if it.retryCount < cfg.maxRetries then Ready else Stuck)
      && move.item.retryCount == it.retryCount + (if move.item.state.Ready? then 1 else 0)
      && move.item.pr == (if answers.worker.ExistingPr? then mid.pr.(number := Ref(answers.worker.pr)) else mid.pr)
      && !move.item.ci.needsFix
      && move.item.session.workspace == (if answers.worker.Started? then answers.worker.workspace else it.session.workspace)
      && move.item.feedback == (if answers.worker.Started? && !FailsToStart(it, answers) && it.feedback.needsResponse then
                                  Feedback(false, NoMessage, false, it.feedback.batch) else it.feedback)
      && move.item.workItem == it.workItem && move.item.review == it.review && move.item.repair == it.repair
      && move.item.mergeFailCount == it.mergeFailCount
  {
  }

  // ---- The rebase of an item that waits ----------------------------------------------------

  /** The state an item ends in that was asked to be rebased where the lifecycle asks for it. */
  function RebaseTarget(cfg: Config, it: Item, escalate: bool, answers: Answers): State {
    if answers.rebased then CiPending
    else if !escalate && answers.reachable && it.session.workspace.Workspace? then it.state
    else if it.rebase.attempts >= cfg.maxRebaseAttempts then Stuck
    else if answers.launched.Workspace? && it.pr.number.Ref? then Rebasing
    else it.state
  }

  /**
   * Main result: where a rebase request ends: rebased by the daemon, left to a live worker, handed
   * to a rebaser, which is counted, or stuck once the attempts are used up.
   */
  lemma RebaseEndsExactly(cfg: Config, it: Item, escalate: bool, answers: Answers, now: int)
    requires it.state.CiPending? || it.state.CiFailed? || it.state.ReviewPending?
    ensures var move := ExecuteDaemonRebase(cfg, it, escalate, answers, now);
      && move.Moved? && move.item.id == it.id && move.item.state == RebaseTarget(cfg, it, escalate, answers)
      && (move.item.state == it.state ==> move.item == it)
      && move.item.rebase.attempts == it.rebase.attempts + (if move.item.state.Rebasing? then 1 else 0)
      && move.item.rebase.workspace == (if move.item.state.Rebasing? then answers.launched else it.rebase.workspace)
      && move.item.session.workspace == it.session.workspace
      && move.item == it.(state := move.item.state, lastTransition := move.item.lastTransition, session := move.item.session,
                          ci := move.item.ci, rebase := move.item.rebase)
  {
  }

  // ---- What a merge does to the others -----------------------------------------------------

  /** The item depends on the merged one, holds a slot, and was replayed onto the default branch. */
  predicate Replayed(other: Item, id: Id, restacked: set<Id>) {
    && other.id != id && id in other.workItem.dependencies && other.id in restacked
    && (|| other.state.Launching? || other.state.Implementing? || other.state.CiPending? || other.state.CiPassed?
        || other.state.CiFailed? || other.state.Rebasing? || other.state.Reviewing? || other.state.ReviewPending?
        || other.state.Merging?)
  }

  /**
   * Main result: executing the merge of a merging item takes exactly the replayed dependents off
   * their stack, and only when the merge went through; every other item is left alone.
   */
  lemma MergeRestacksExactly(cfg: Config, items: seq<Item>, k: nat, pr: Ref, admin: bool, answers: Answers, now: int)
    requires DistinctIds(items) && k < |items| && items[k].state.Merging?
    ensures var s := Execute(cfg, items, Merge(items[k].id, pr, admin), answers, now);
      && s.Sweep? && |s.items| == |items| && s.actions == []
      && s.items[k] == ExecuteMerge(cfg, items, items[k], pr, answers, now).item
      && forall j :: 0 <= j < |items| && j != k ==>
           s.items[j] == if GoesThrough(items, items[k], pr, answers) && Replayed(items[j], items[k].id, answers.merge.restacked) then
                           items[j].(pr := items[j].pr.(baseBranch := Absent)) else items[j]
  {
    hide ExecuteMerge, BaseGone, ExpectedBase, StackedOnOpen, RightBase, MergeTarget, BaseAfter, Counts;
    var it := items[k];
    FindUnique(items, k);
    MergeEndsExactly(cfg, items, it, pr, answers, now);
    GoneExactly(items, it);
    RightBaseIs(items, it);
    var move := ExecuteMerge(cfg, items, it, pr, answers, now);
    assert Merges(items, it, pr, answers) <==> GoesThrough(items, it, pr, answers);
    var next := items[k := move.item];
    assert Restack(move.item, it.id, answers.merge.restacked) == move.item;
    assert forall j :: 0 <= j < |items| && j != k ==> items[j].id != it.id;
  }

  // ---- Messages and sessions ---------------------------------------------------------------

  /** The waiting message is this one, and the worker was seen alive when it was sent. */
  predicate Expects(it: Item, message: Message) {
    it.feedback.needsResponse && it.feedback.armed && it.feedback.message == message
  }

  /**
   * A message to a worker takes the waiting feedback off the item exactly when it reaches
   * the worker, is the one that waits, and the worker was alive; otherwise nothing changes.
   */
  lemma DeliveryExactly(cfg: Config, items: seq<Item>, it: Item, message: Message, answers: Answers, now: int)
    ensures var move := ExecuteAction(cfg, items, it, SendMessage(it.id, message), answers, now);
      && move.Moved? && move.item == it.(feedback := move.item.feedback) && move.item.feedback.batch == it.feedback.batch
      && (HandoffPending(it) ==> (!HandoffPending(move.item) <==> answers.reachable && Expects(it, message)))
      && (!(answers.reachable && Expects(it, message)) ==> move.item == it)
  {
  }

  /** A failed check that cannot be told to the worker relaunches it, with the order to fix CI. */
  lemma NoticeEndsExactly(cfg: Config, items: seq<Item>, it: Item, pr: Ref, answers: Answers, now: int)
    requires it.state.CiFailed?
    ensures var move := ExecuteAction(cfg, items, it, NotifyCiFailure(it.id, pr), answers, now);
      && move.Moved? && (answers.reachable ==> move.item == it)
      && (!answers.reachable ==>
            && move.item.state.Ready? && move.item.lastTransition == now
            && move.item.session.workspace.NoWorkspace? && move.item.ci.needsFix && move.item.retryCount == it.retryCount
            && move.item.feedback == it.feedback && move.item.review == it.review && move.item.pr == it.pr)
  {
  }

  /** The sessions of an item: the worker's, the one to be closed for a retry, the reviewer's, the rebaser's and the fixer's. */
  datatype Sessions = Sessions(worker: Workspace, retry: Workspace, reviewer: Workspace, rebaser: Workspace, fixer: Workspace)

  function SessionsOf(it: Item): Sessions {
    Sessions(it.session.workspace, it.session.pendingRetry, it.review.workspace, it.rebase.workspace, it.repair.workspace)
  }

  /** Only the sessions of the item differ. */
  predicate SameButSessions(it: Item, next: Item) {
    next == it.(session := it.session.(workspace := next.session.workspace, pendingRetry := next.session.pendingRetry),
                review := it.review.(workspace := next.review.workspace), rebase := it.rebase.(workspace := next.rebase.workspace),
                repair := it.repair.(workspace := next.repair.workspace))
  }

  /** Some pull request, or the merge commit, is there to be worked on. */
  predicate HelperStarts(it: Item, a: Action, answers: Answers) {
    && answers.launched != NoWorkspace
    && ((a.LaunchReview? && HasPr(it, a.pr)) || (a.LaunchForwardFixer? && it.repair.mergeCommit != Absent))
  }

  /**
   * What executing the other actions does to the sessions of an item. A reviewer or a fixer
   * that starts is on record, one that is cleaned up is not; a retry leaves neither the old session nor
   * one to be closed; a session is off the record once it is closed; nothing else changes.
   */
  lemma SessionsExactly(cfg: Config, items: seq<Item>, it: Item, a: Action, answers: Answers, now: int)
    requires !a.Launch? && !a.Merge? && !a.NotifyCiFailure? && !a.DaemonRebase? && !a.SendMessage?
    ensures var move := ExecuteAction(cfg, items, it, a, answers, now);
      && move.Moved? && SameButSessions(it, move.item)
      && SessionsOf(move.item) ==
           Sessions(if a.Retry? || a.Clean? || (a.WorkspaceClose? && answers.closed) then NoWorkspace else it.session.workspace,
                    if a.Retry? then NoWorkspace else it.session.pendingRetry,
                    if a.CleanReview? then NoWorkspace
                    else if a.LaunchReview? && HelperStarts(it, a, answers) then answers.launched else it.review.workspace,
                    if a.CleanRebaser? then NoWorkspace else it.rebase.workspace,
                    if a.CleanForwardFixer? then NoWorkspace
                    else if a.LaunchForwardFixer? && HelperStarts(it, a, answers) then answers.launched else it.repair.workspace)
  {
  }
}
