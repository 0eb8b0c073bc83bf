/**
 * The actions as environment steps (core/orchestrator-actions.ts): what executing one does to the
 * tracked items, given arbitrary answers from git, GitHub, the multiplexer and the workers.
 */
module Execution {
  import opened OrchestratorTypes
  import opened Lifecycle
  import opened OrchestratorGuards
  import opened Poll

  /** validatePickupCandidate. */
  datatype Pickup = Accept | Refuse | SkipWithPr(pr: nat)

  /** launchSingleItem, and whether delivering the first message to the new worker threw. */
  datatype WorkerAnswer = NoWorker | LaunchThrew | ExistingPr(pr: nat) | Started(workspace: Workspace, deliveryThrew: bool)

  datatype Base = DefaultBranch | DependencyBranch(dep: Id) | OtherBranch

  /** What GitHub says about the base of the pull request; `Unchecked` when no lookup is wired. */
  datatype BaseAnswer = Unchecked | Unreachable | AlreadyMerged | BaseUnknown | BaseIs(base: Base)

  datatype MergeAnswer = MergeAnswer(
    base: BaseAnswer,
    retargeted: bool,
    merged: bool,
    mergeable: bool,
    blocked: bool,
    commit: Ref,
    restacked: set<Id>)

  /** Everything the outside world may answer while one action is executed. */
  datatype Answers = Answers(
    pickup: Pickup,
    worker: WorkerAnswer,
    merge: MergeAnswer,
    reachable: bool,
    closed: bool,
    rebased: bool,
    launched: Workspace)

  /** DEP_DONE_STATES. */
  predicate DepDone(s: State) {
    s.Done? || s.Merged? || s.ForwardFixPending? || s.FixForwardFailed?
  }

  /** The base branch `base` is gone: its item is untracked or past its merge. */
  predicate BaseGone(items: seq<Item>, base: Ref) {
    base.Ref? && (Find(items, base.n) < 0 || DepDone(items[Find(items, base.n)].state))
  }

  // ---- executeLaunch ----------------------------------------------------------------------

  /** The catch block of executeLaunch: schedule a retry while the budget lasts. */
  function LaunchFailed(cfg: Config, it: Item, now: int): Move {
    if it.retryCount < cfg.maxRetries then Transition(it.(retryCount := it.retryCount + 1), Ready, now)
    else Transition(it, Stuck, now)
  }

  /** A transition inside the try block: running off the table lands in the catch block. */
  function OrLaunchFailed(cfg: Config, it: Item, move: Move, now: int): Move {
    if move.Moved? then move else LaunchFailed(cfg, it, now)
  }

  function FeedbackDelivered(it: Item): Item {
    if it.feedback.needsResponse then it.(feedback := it.feedback.(needsResponse := false, message := NoMessage, armed := false))
    else it
  }

  /** The try block of executeLaunch. */
  function LaunchWorker(cfg: Config, it: Item, delivers: bool, answer: WorkerAnswer, now: int): Move {
    match answer
    case NoWorker =>
      var counted := if it.retryCount < cfg.maxRetries then it.(retryCount := it.retryCount + 1) else it;
      OrLaunchFailed(cfg, counted, LaunchFailed(cfg, it, now), now)
    case LaunchThrew => LaunchFailed(cfg, it, now)
    case ExistingPr(pr) =>
      var tracked := it.(pr := it.pr.(number := Ref(pr)));
      OrLaunchFailed(cfg, tracked, Transition(tracked, CiPending, now), now)
    case Started(workspace, deliveryThrew) =>
      var started := it.(session := it.session.(workspace := workspace));
      if delivers && deliveryThrew then LaunchFailed(cfg, started, now) else Moved(FeedbackDelivered(started))
  }

  function ExecuteLaunch(cfg: Config, items: seq<Item>, it: Item, base: Ref, answers: Answers, now: int): Move {
    match answers.pickup
    case Refuse => Transition(it, Blocked, now)
    case _ =>
      if answers.pickup.SkipWithPr? && !it.ci.needsFix && !it.feedback.needsResponse then
        Transition(it.(pr := it.pr.(number := Ref(answers.pickup.pr))), CiPending, now)
      else
        var unstacked := if BaseGone(items, base) then it.(pr := it.pr.(baseBranch := Absent)) else it;
        var delivers := it.ci.needsFix || HandoffPending(it);
        LaunchWorker(cfg, unstacked.(ci := it.ci.(needsFix := false)), delivers, answers.worker, now)
  }

  // ---- executeMerge -----------------------------------------------------------------------

  /** resolveExpectedPrBase. */
  function ExpectedBase(items: seq<Item>, it: Item): Base {
    if it.pr.baseBranch.Absent? || BaseGone(items, it.pr.baseBranch) then DefaultBranch else DependencyBranch(it.pr.baseBranch.n)
  }

  function Stack(it: Item, base: Base): Item {
    it.(pr := it.pr.(baseBranch := if base.DependencyBranch? then Ref(base.dep) else Absent))
  }

  function CloseIf(it: Item, closed: bool): Item {
    if closed then it.(session := it.session.(workspace := NoWorkspace)) else it
  }

  /** The pull request targets another base than expected: retarget it, or notice that its dependency merged. */
  function Retarget(it: Item, actual: Base, expected: Base, retargeted: bool, now: int): Move {
    if retargeted then Transition(Stack(it, expected), CiPending, now)
    else if expected.DependencyBranch? && actual.DefaultBranch? then Transition(Stack(it, DefaultBranch), CiPending, now)
    else Transition(it, CiPassed, now)
  }

  /** wasRecentlyUnstacked. */
  predicate WasRecentlyUnstacked(items: seq<Item>, it: Item) {
    exists k :: 0 <= k < |items| && items[k].id in it.workItem.dependencies && DepDone(items[k].state)
  }

  function MergeFailed(cfg: Config, it: Item, now: int): Move {
    var counted := it.(mergeFailCount := it.mergeFailCount + 1);
    Transition(counted, if counted.mergeFailCount >= cfg.maxMergeRetries then Stuck else CiPassed, now)
  }

  /** executeMerge once the base is settled. */
  function AttemptMerge(cfg: Config, items: seq<Item>, it: Item, expected: Base, answers: Answers, now: int): Move {
    if !expected.DefaultBranch? then
      if it.state.Merging? then Transition(it, CiPassed, now) else Moved(it)
    else if !answers.merge.merged then
      if !answers.merge.mergeable then Transition(it.(rebase := it.rebase.(requested := false)), CiPending, now)
      else if WasRecentlyUnstacked(items, it) || answers.merge.blocked then Transition(it, CiPending, now)
      else MergeFailed(cfg, it, now)
    else
      var merged := Transition(it.(mergeFailCount := 0), Merged, now);
      if merged.Illegal? then merged
      else
        var settled := CloseIf(merged.item, answers.closed);
        Moved(if cfg.fixForward then settled.(repair := settled.repair.(mergeCommit := OrRef(answers.merge.commit, settled.repair.mergeCommit)))
              else settled)
  }

  function ExecuteMerge(cfg: Config, items: seq<Item>, it: Item, pr: Ref, answers: Answers, now: int): Move {
    var expected := ExpectedBase(items, it);
    if pr.Absent? && it.pr.number.Absent? then Moved(it)
    else
      match answers.merge.base
      case Unchecked => AttemptMerge(cfg, items, it, expected, answers, now)
      case Unreachable => Moved(it)
      case BaseUnknown => Moved(it)
      case AlreadyMerged =>
        var merged := Transition(it, Merged, now);
        if merged.Illegal? then merged else Moved(CloseIf(merged.item, answers.closed))
      case BaseIs(actual) =>
        if actual != expected then Retarget(it, actual, expected, answers.merge.retargeted, now)
        else AttemptMerge(cfg, items, Stack(it, expected), expected, answers, now)
  }

  /** The restack loop of executeMerge: rebased dependents are no longer stacked. */
  function Restack(other: Item, id: Id, restacked: set<Id>): Item {
    if other.id != id && id in other.workItem.dependencies && Active(other.state) && other.id in restacked then
      other.(pr := other.pr.(baseBranch := Absent))
    else other
  }

  /** executeMerge reaches its restack loop. */
  predicate Merges(items: seq<Item>, it: Item, pr: Ref, answers: Answers) {
    && (pr.Ref? || it.pr.number.Ref?)
    && ExpectedBase(items, it).DefaultBranch?
    && (answers.merge.base.Unchecked? || answers.merge.base == BaseIs(DefaultBranch))
    && answers.merge.merged
  }

  // ---- The other actions ------------------------------------------------------------------

  /** executeDaemonRebase once the daemon could not rebase: the rebaser, its circuit breaker, or nothing. */
  function LaunchRebaser(cfg: Config, it: Item, launched: Workspace, now: int): Move {
    if it.rebase.attempts >= cfg.maxRebaseAttempts then Transition(it, Stuck, now)
    else if launched.NoWorkspace? || it.pr.number.Absent? then Moved(it)
    else
      var handed := it.(rebase := it.rebase.(workspace := launched, attempts := it.rebase.attempts + 1));
      var rebasing := Transition(handed, Rebasing, now);
      if rebasing.Moved? then rebasing else Moved(handed)
  }

  function ExecuteDaemonRebase(cfg: Config, it: Item, escalate: bool, answers: Answers, now: int): Move {
    var pending := Transition(it, CiPending, now);
    if answers.rebased && pending.Moved? then pending
    else if !escalate && answers.reachable && it.session.workspace.Workspace? then Moved(it)
    else LaunchRebaser(cfg, it, answers.launched, now)
  }

  function ExecuteNotifyCiFailure(it: Item, reachable: bool, now: int): Move {
    if reachable then Moved(it)
    else Transition(it.(ci := it.ci.(needsFix := true), session := it.session.(workspace := NoWorkspace)), Ready, now)
  }

  function ExecuteRetry(it: Item): Item {
    if it.session.pendingRetry.NoWorkspace? && it.session.workspace.NoWorkspace? then it
    else it.(session := it.session.(workspace := NoWorkspace, pendingRetry := NoWorkspace))
  }

  function ExecuteSendMessage(it: Item, message: Message, reachable: bool): Item {
    if reachable && it.feedback.armed && it.feedback.needsResponse && it.feedback.message == message then FeedbackDelivered(it)
    else it
  }

  /** executeAction on a tracked item, as far as it concerns that item. */
  function ExecuteAction(cfg: Config, items: seq<Item>, it: Item, action: Action, answers: Answers, now: int): Move {
    match action
    case Launch(_, base) => ExecuteLaunch(cfg, items, it, base, answers, now)
    case Merge(_, pr, _) => ExecuteMerge(cfg, items, it, pr, answers, now)
    case NotifyCiFailure(_, _) => ExecuteNotifyCiFailure(it, answers.reachable, now)
    case DaemonRebase(_, escalate) => ExecuteDaemonRebase(cfg, it, escalate, answers, now)
    case Clean(_) => Moved(it.(session := it.session.(workspace := NoWorkspace)))
    case WorkspaceClose(_) => Moved(CloseIf(it, answers.closed))
    case Retry(_) => Moved(ExecuteRetry(it))
    case SendMessage(_, message) => Moved(ExecuteSendMessage(it, message, answers.reachable))
    case LaunchReview(_, pr) =>
      Moved(if answers.launched.Workspace? && (pr.Ref? || it.pr.number.Ref?) then it.(review := it.review.(workspace := answers.launched))
            else it)
    case LaunchForwardFixer(_) =>
      Moved(if answers.launched.Workspace? && it.repair.mergeCommit.Ref? then it.(repair := it.repair.(workspace := answers.launched))
            else it)
    case CleanRebaser(_) => Moved(it.(rebase := it.rebase.(workspace := NoWorkspace)))
    case CleanReview(_) => Moved(it.(review := it.review.(workspace := NoWorkspace)))
    case CleanForwardFixer(_) => Moved(it.(repair := it.repair.(workspace := NoWorkspace)))
    case NotifyReview(_, _) => Moved(it)
    case RebaseRequest(_, _) => Moved(it)
    case SyncStackComments(_) => Moved(it)
    case SetCommitStatus(_, _, _) => Moved(it)
    case PostReview(_, _, _) => Moved(it)
    case ClearFeedbackDone(_) => Moved(it)
    case ClearPushback(_) => Moved(it)
    case ClearNoNewInfo(_) => Moved(it)
  }

  /** executeAction: untracked items are skipped; a successful merge also restacks the dependents. */
  function Execute(cfg: Config, items: seq<Item>, action: Action, answers: Answers, now: int): (s: Sweep)
    ensures s.Sweep? ==> |s.items| == |items|
  {
    var k := Find(items, action.id);
    if k < 0 then Sweep(items, [])
    else
      var it := items[k];
      var move := ExecuteAction(cfg, items, it, action, answers, now);
      if move.Illegal? then Crash
      else if action.Merge? && Merges(items, it, action.pr, answers) then
        Sweep(RestackAll(items[k := move.item], action.id, answers.merge.restacked), [])
      else Sweep(items[k := move.item], [])
  }

  function RestackAll(items: seq<Item>, id: Id, restacked: set<Id>): (next: seq<Item>)
    ensures |next| == |items|
    ensures forall k :: 0 <= k < |items| ==> next[k] == Restack(items[k], id, restacked)
  {
    seq(|items|, k requires 0 <= k < |items| => Restack(items[k], id, restacked))
  }
}
