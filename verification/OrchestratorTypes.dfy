/**
 * Data of the orchestrator: item states and the table of legal edges, configuration,
 * the tracked item, the poll snapshot and the actions (core/orchestrator-types.ts).
 */
module OrchestratorTypes {
  /** Work item ids, compared as `localeCompare` compares them. */
  type Id = nat

  datatype State =
    | Queued | Ready | Launching | Implementing
    | CiPending | CiPassed | CiFailed | Rebasing
    | ReviewPending | Reviewing | Merging | Merged
    | ForwardFixPending | FixForwardFailed | FixingForward
    | Done | Blocked | Stuck

  /** STATE_TRANSITIONS: the edges `transition` accepts. */
  predicate Legal(from: State, to: State) {
    match from
    case Queued => to.Ready?
    case Ready => to.Launching? || to.Queued?
    case Launching => to.Implementing? || to.Stuck? || to.Ready? || to.Queued? || to.Blocked? || to.CiPending?
    case Implementing => to.CiPending? || to.Merged? || to.Stuck? || to.Ready?
    case CiPending => to.CiPassed? || to.CiFailed? || to.Merged? || to.Stuck? || to.Rebasing?
    case CiPassed =>
      to.Reviewing? || to.ReviewPending? || to.Merging? || to.CiPending? || to.CiFailed? || to.Stuck? || to.Merged?
    case CiFailed => to.CiPending? || to.CiPassed? || to.Stuck? || to.Ready? || to.Merged? || to.Rebasing?
    case Rebasing => to.CiPending? || to.Stuck?
    case Reviewing => to.CiPassed? || to.CiFailed? || to.CiPending? || to.ReviewPending? || to.Merged?
    case ReviewPending =>
      || to.CiPending? || to.CiPassed? || to.CiFailed? || to.Merging? || to.Merged? || to.Stuck?
      || to.Reviewing? || to.Rebasing? || to.Ready?
    case Merging => to.Merged? || to.CiPassed? || to.CiPending? || to.ReviewPending? || to.Stuck?
    case Merged => to.ForwardFixPending? || to.FixForwardFailed? || to.Done?
    case ForwardFixPending => to.Done? || to.FixForwardFailed?
    case FixForwardFailed => to.FixingForward? || to.Stuck? || to.Done?
    case FixingForward => to.Done? || to.CiPending? || to.Merged? || to.Stuck?
    case Done => false
    case Blocked => false
    case Stuck => false
  }

  /** ACTIVE_SESSION_STATES: states that hold an in-flight slot. */
  predicate Active(s: State) {
    || s.Launching? || s.Implementing? || s.CiPending? || s.CiPassed? || s.CiFailed?
    || s.Rebasing? || s.Reviewing? || s.ReviewPending? || s.Merging?
  }

  /** TERMINAL_STATES. */
  predicate Terminal(s: State) {
    s.Done? || s.Blocked? || s.Stuck?
  }

  /** STACKABLE_STATES. */
  predicate Stackable(s: State) {
    s.CiPassed? || s.Reviewing? || s.ReviewPending? || s.Merging?
  }

  datatype MergeStrategy = Auto | Manual | Bypass

  datatype Config = Config(
    maxInflight: nat,
    acceptingWork: bool,
    mergeStrategy: MergeStrategy,
    maxCiRetries: int,
    maxRetries: nat,
    launchTimeoutMs: int,
    activityTimeoutMs: int,
    enableStacking: bool,
    maxMergeRetries: nat,
    maxRebaseAttempts: nat,
    rebaseRetryStaleMs: int,
    maxReviewRounds: nat,
    fixForward: bool,
    maxFixForwardRetries: nat,
    ciPendingFailGraceMs: int,
    skipReview: bool,
    gracePeriodMs: int,
    inboxWaitExpireMs: int)

  // TIMEOUTS and NOT_ALIVE_THRESHOLD, in milliseconds and polls.
  const HEARTBEAT_MS := 5 * 60 * 1000
  const LAUNCHING_MS := 5 * 60 * 1000
  const CI_FIX_ACK_MS := 30 * 60 * 1000
  const FEEDBACK_DEBOUNCE_MS := 60 * 1000
  const MERGE_CI_MS := 60_000
  const MERGE_CI_NO_PUSH_MS := 15_000
  const NOT_ALIVE_THRESHOLD: nat := 5

  datatype Priority = Critical | High | Medium | Low {
    /** PRIORITY_NUM. */
    function Rank(): nat {
      match this
      case Critical => 0
      case High => 1
      case Medium => 2
      case Low => 3
    }
  }

  /** The parsed fields of a work item file that the lifecycle or the reconcile pass reads. */
  datatype WorkItem = WorkItem(
    id: Id,
    priority: Priority,
    title: string,
    domain: string,
    lineageToken: string,
    dependencies: seq<Id>,
    bundleWith: seq<Id>,
    status: string,
    requiresManualReview: bool)

  /** A pull request comment; `byAgent` says that the agent prefix or the HTML marker matched its body. */
  datatype Comment = Comment(key: nat, createdAt: int, byAgent: bool)

  /** A debounced batch of human comments. The order they print in is presentation only. */
  datatype Batch = NoBatch | Batch(comments: set<Comment>, deadline: int)

  datatype Message =
    | NoMessage
    | BatchFeedback(comments: set<Comment>)
    | ReviewFeedback(round: nat)
    | GitHubRequestedChanges
    | ReviewRequestedChanges

  /** An optional workspace reference; `headless` says that it carries the "headless:" prefix. */
  datatype Workspace = NoWorkspace | Workspace(name: nat, headless: bool)

  /** A timestamp field, which TypeScript may leave `undefined` or set to `null`. */
  datatype Time = Undefined | Null | At(ms: int)

  /** An optional pull request number, commit hash or id. */
  datatype Ref = Absent | Ref(n: nat)

  /** The worker session: workspaceRef, pendingRetryWorkspaceRef, sessionParked, lastAliveAt, … */
  datatype Session = Session(
    workspace: Workspace,
    pendingRetry: Workspace,
    parked: bool,
    lastAliveAt: Time,
    notAliveCount: nat,
    timeoutDeadline: Time,
    timeoutExtensions: nat)

  /** prNumber, priorPrNumbers, baseBranch (the id behind `ninthwave/`) and lastCommitTime. */
  datatype PullRequest = PullRequest(number: Ref, prior: seq<nat>, baseBranch: Ref, lastCommitTime: Time)

  /** ciFailCount, ciFailCountTotal, ciFailureNotified, ciFailureNotifiedAt, ciNotifyWallAt, ciPendingSince, needsCiFix. */
  datatype Ci = Ci(
    failCount: nat,
    failCountTotal: nat,
    notified: bool,
    notifiedAt: Time,
    notifyWallAt: Time,
    pendingSince: Time,
    needsFix: bool)

  /** rebaseRequested, lastRebaseNudgeAt, rebaseNudgeCount, rebaseAttemptCount, rebaserWorkspaceRef. */
  datatype Rebase = Rebase(requested: bool, lastNudgeAt: Time, nudgeCount: nat, attempts: nat, workspace: Workspace)

  /** reviewCompleted, reviewRound, lastReviewedCommitSha, lastApprovedCommitSha, pushbackRounds, reviewWorkspaceRef. */
  datatype Review = Review(
    completed: bool,
    round: nat,
    lastReviewed: Ref,
    lastApproved: Ref,
    pushbacks: seq<nat>,
    workspace: Workspace)

  /** needsFeedbackResponse, pendingFeedbackMessage, pendingFeedbackLiveDeliveryArmed, pendingFeedbackBatch. */
  datatype Feedback = Feedback(needsResponse: bool, message: Message, armed: bool, batch: Batch)

  /** mergeCommitSha, fixForwardFailCount, fixForwardWorkspaceRef. */
  datatype Repair = Repair(mergeCommit: Ref, failCount: nat, workspace: Workspace)

  /** OrchestratorItem without telemetry and message texts, its fields grouped by concern. */
  datatype Item = Item(
    id: Id,
    workItem: WorkItem,
    state: State,
    lastTransition: int,
    retryCount: nat,
    mergeFailCount: nat,
    session: Session,
    pr: PullRequest,
    ci: Ci,
    rebase: Rebase,
    review: Review,
    feedback: Feedback,
    repair: Repair)

  /** The item `addItem` creates. */
  function NewItem(workItem: WorkItem, now: int): Item {
    Item(workItem.id, workItem, Queued, now, 0, 0,
         Session(NoWorkspace, NoWorkspace, false, Undefined, 0, Undefined, 0),
         PullRequest(Absent, [], Absent, Undefined),
         Ci(0, 0, false, Undefined, Undefined, Undefined, false),
         Rebase(false, Undefined, 0, 0, NoWorkspace),
         Review(false, 0, Absent, Absent, [], NoWorkspace),
         Feedback(false, NoMessage, false, NoBatch),
         Repair(Absent, 0, NoWorkspace))
  }

  datatype Status = NoStatus | Pass | Fail | InProgress | Unknown
  datatype ReviewDecision = NoDecision | Approved | ChangesRequested | ReviewRequired
  datatype PrState = NoPr | Open | Closed | PrMerged
  datatype Phase = NoPhase | Starting | Coding | Waiting
  datatype Verdict = NoVerdict | Approve | RequestChanges
  datatype Answer = NotAsked | Yes | No

  /** What one poll saw of one item; every field may be absent. */
  datatype Snapshot = Snapshot(
    prNumber: Ref,
    ciStatus: Status,
    reviewDecision: ReviewDecision,
    prState: PrState,
    isMergeable: Answer,
    workerAlive: Answer,
    headlessPhase: Phase,
    lastCommitTime: Time,
    eventTime: Time,
    newComments: seq<Comment>,
    heartbeatAt: Time,
    mergeCommit: Ref,
    mergeCommitCi: Status,
    hasPushWorkflows: Answer,
    reviewVerdict: Verdict,
    inboxWaitingSince: Time,
    headSha: Ref,
    feedbackDone: bool,
    pushback: Ref,
    noNewInfo: bool,
    hasReviewerComment: Answer)

  /** An item without a snapshot entry: the handlers read every field through `snap?.`. */
  function NoSnapshot(): Snapshot {
    Snapshot(Absent, NoStatus, NoDecision, NoPr, NotAsked, NotAsked, NoPhase, Undefined, Undefined, [], Undefined,
             Absent, NoStatus, NotAsked, NoVerdict, Undefined, Absent, false, Absent, false, NotAsked)
  }

  datatype Action =
    | Launch(id: Id, baseBranch: Ref)
    | Merge(id: Id, pr: Ref, admin: bool)
    | NotifyCiFailure(id: Id, pr: Ref)
    | NotifyReview(id: Id, message: Message)
    | Clean(id: Id)
    | WorkspaceClose(id: Id)
    | RebaseRequest(id: Id, dependency: Id)
    | DaemonRebase(id: Id, escalateToRebaser: bool)
    | Retry(id: Id)
    | SyncStackComments(id: Id)
    | CleanRebaser(id: Id)
    | LaunchReview(id: Id, pr: Ref)
    | CleanReview(id: Id)
    | LaunchForwardFixer(id: Id)
    | CleanForwardFixer(id: Id)
    | SendMessage(id: Id, message: Message)
    | SetCommitStatus(id: Id, pr: Ref, result: Status)
    | PostReview(id: Id, pr: Ref, verdict: Verdict)
    | ClearFeedbackDone(id: Id)
    | ClearPushback(id: Id)
    | ClearNoNewInfo(id: Id)
}
