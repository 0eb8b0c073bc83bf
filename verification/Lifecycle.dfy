/**
 * The per-item handlers of `processTransitions` (core/orchestrator.ts) as functions of the
 * item record: each one is the specification its method in module TrackedItems is proved against.
 */
module Lifecycle {
  import opened OrchestratorTypes
  import opened OrchestratorGuards

  /** A handler returns the item and its actions, declines (`null`), or throws on an illegal edge. */
  datatype Step = Step(item: Item, actions: seq<Action>) | Declined | Throw(from: State, to: State) {
    predicate IsFailure() { Throw? }

    function PropagateFailure(): Step
      requires Throw?
    {
      this
    }

    function Extract(): Step
      requires !Throw?
    {
      this
    }

    /** The step itself, or the item unchanged when the handler declined. */
    function OrStay(it: Item): Step {
      if Declined? then Step(it, []) else this
    }

    /** The step with `before` in front of its actions. */
    function After(before: seq<Action>): Step {
      if Step? then Step(item, before + actions) else this
    }
  }

  /** The result of `transition`. */
  datatype Move = Moved(item: Item) | Illegal(from: State, to: State) {
    predicate IsFailure() { Illegal? }

    function PropagateFailure(): Step
      requires Illegal?
    {
      Throw(from, to)
    }

    function Extract(): Item
      requires Moved?
    {
      item
    }
  }

  datatype Liveness = Alive | Dead | Debouncing | UnknownLiveness

  datatype DeliveryMode = Deliver | Relaunch | Wait

  /** The field resets `transition` performs on entry to state `to`. */
  function Enter(it: Item, to: State, now: int): Item {
    var green := to.CiPending? || to.CiPassed?;
    var since := if !to.CiPending? then Undefined
                 else if it.state.Implementing? || it.state.Launching? then At(now)
                 else it.ci.pendingSince;
    it.(state := to,
        lastTransition := now,
        rebase := it.rebase.(requested := false),
        session := it.session.(parked := false, timeoutDeadline := Undefined, timeoutExtensions := 0),
        ci := if green then it.ci.(pendingSince := since, notified := false, notifiedAt := Undefined, notifyWallAt := Undefined)
              else it.ci.(pendingSince := since),
        review := it.review.(completed := it.review.completed && !to.CiFailed?))
  }

  /** transition: a no-op on the current state, an exception off the table. */
  function Transition(it: Item, to: State, now: int): Move {
    if it.state == to then Moved(it)
    else if !Legal(it.state, to) then Illegal(it.state, to)
    else Moved(Enter(it, to, now))
  }

  // ---- Shared helpers ---------------------------------------------------------------------

  function ClearRebaseRetryState(it: Item): Item {
    it.(rebase := it.rebase.(requested := false, lastNudgeAt := Undefined, nudgeCount := 0, attempts := 0))
  }

  function ResetRebaseRetryCooldown(it: Item, progressAt: Time, now: int): Item {
    it.(rebase := it.rebase.(requested := false, lastNudgeAt := OrTime(progressAt, At(now)), nudgeCount := 0))
  }

  /** The commit time a handler sees: the snapshot's, else the item's. */
  function CommitTime(it: Item, snap: Snapshot): Time {
    OrTime(snap.lastCommitTime, it.pr.lastCommitTime)
  }

  predicate HasCommitProgress(it: Item, snap: Snapshot) {
    var commit := CommitTime(it, snap);
    it.rebase.lastNudgeAt.At? && commit.At? && commit.ms > it.rebase.lastNudgeAt.ms
  }

  function PlanRebaseConflictAction(cfg: Config, it: Item, now: int): Step {
    var stale := IsRebaseStale(it.rebase.lastNudgeAt, now, cfg.rebaseRetryStaleMs);
    if it.rebase.requested && !it.rebase.lastNudgeAt.At? then
      Step(it.(rebase := it.rebase.(lastNudgeAt := At(now))), [])
    else if !stale then Step(it, [])
    else if !it.rebase.requested then
      Step(it.(rebase := it.rebase.(requested := true, lastNudgeAt := At(now), nudgeCount := 0)),
           [DaemonRebase(it.id, false)])
    else
      Step(it.(rebase := it.rebase.(lastNudgeAt := At(now), nudgeCount := it.rebase.nudgeCount + 1)),
           [DaemonRebase(it.id, it.rebase.nudgeCount >= 1)])
  }

  function LivenessOf(it: Item, snap: Snapshot): Liveness {
    match snap.workerAlive
    case Yes => Alive
    case No => if it.session.notAliveCount + 1 >= NOT_ALIVE_THRESHOLD then Dead else Debouncing
    case NotAsked => UnknownLiveness
  }

  /** The counter update of checkWorkerLiveness; `LivenessOf` is its result. */
  function CountLiveness(it: Item, snap: Snapshot): Item {
    match snap.workerAlive
    case Yes => it.(session := it.session.(notAliveCount := 0))
    case No => it.(session := it.session.(notAliveCount := it.session.notAliveCount + 1))
    case NotAsked => it
  }

  function EmitCiFailureNotification(it: Item, now: int): Step {
    Step(it.(ci := it.ci.(notified := true,
                          notifiedAt := OrTime(it.pr.lastCommitTime, Null),
                          notifyWallAt := At(now))),
         [NotifyCiFailure(it.id, it.pr.number)])
  }

  function Max(a: int, b: int): int {
    if a < b then b else a
  }

  predicate InboxWaitStalled(cfg: Config, it: Item, snap: Snapshot, now: int) {
    var commit := CommitTime(it, snap);
    var waiting := if snap.inboxWaitingSince.At? then Max(it.lastTransition, snap.inboxWaitingSince.ms)
                   else it.lastTransition;
    var latest := if commit.At? then Max(waiting, commit.ms) else waiting;
    cfg.inboxWaitExpireMs > 0 && now - latest > cfg.inboxWaitExpireMs
  }

  /** shouldDeferTimeout: the first detection opens a grace window, which holds until its deadline. */
  predicate DefersTimeout(cfg: Config, it: Item, now: int) {
    cfg.gracePeriodMs > 0 && (!it.session.timeoutDeadline.At? || now < it.session.timeoutDeadline.ms)
  }

  function OpenGraceWindow(cfg: Config, it: Item, now: int): Item {
    if cfg.gracePeriodMs > 0 && !it.session.timeoutDeadline.At? then
      it.(session := it.session.(timeoutDeadline := At(now + cfg.gracePeriodMs), timeoutExtensions := 0))
    else it
  }

  /** Hand the workspace to the retry action: stash the reference and reset liveness. */
  function StashWorkspace(session: Session): Session {
    session.(pendingRetry := session.workspace, workspace := NoWorkspace, notAliveCount := 0, lastAliveAt := Undefined)
  }

  function StuckOrRetry(cfg: Config, it: Item, now: int): Step {
    if it.retryCount < cfg.maxRetries then
      var reset := it.(retryCount := it.retryCount + 1,
                       session := StashWorkspace(it.session),
                       pr := it.pr.(lastCommitTime := Undefined));
      var ready :- Transition(reset, Ready, now);
      Step(ready, [Retry(it.id)])
    else
      var stuck :- Transition(it, Stuck, now);
      Step(stuck, [WorkspaceClose(it.id)])
  }

  function RespawnCiFixWorker(it: Item, now: int): Step {
    var reset := it.(session := StashWorkspace(it.session),
                     ci := it.ci.(needsFix := true, notifyWallAt := Undefined));
    var ready :- Transition(reset, Ready, now);
    Step(ready, [Retry(it.id)])
  }

  function RespawnForFeedback(it: Item, message: Message, now: int): Step {
    var reset := it.(session := StashWorkspace(it.session),
                     review := it.review.(completed := false),
                     feedback := it.feedback.(needsResponse := true, message := message, armed := false));
    var ready :- Transition(reset, Ready, now);
    Step(ready, [Retry(it.id)])
  }

  predicate IsRecoverableHeadlessStop(it: Item, snap: Snapshot) {
    && it.session.workspace.Workspace? && it.session.workspace.headless
    && !snap.workerAlive.Yes?
    && (snap.headlessPhase.Waiting? || snap.headlessPhase.Coding?)
  }

  function RecoverHeadlessWorker(it: Item, now: int): Step {
    var reset := it.(session := StashWorkspace(it.session), pr := it.pr.(lastCommitTime := Undefined));
    var ready :- Transition(reset, Ready, now);
    Step(ready, [Retry(it.id)])
  }

  /** What every timeout branch of handleImplementing does: wait, recover, retry or get stuck. */
  function OnTimeout(cfg: Config, it: Item, snap: Snapshot, now: int): Step {
    if DefersTimeout(cfg, it, now) then Step(OpenGraceWindow(cfg, it, now), [])
    else if IsRecoverableHeadlessStop(it, snap) then RecoverHeadlessWorker(it, now)
    else StuckOrRetry(cfg, it, now)
  }

  // ---- Human feedback ---------------------------------------------------------------------

  function HumanComments(comments: seq<Comment>): (humans: seq<Comment>)
    ensures forall c :: c in humans <==> c in comments && !c.byAgent
  {
    if comments == [] then []
    else (if comments[0].byAgent then [] else [comments[0]]) + HumanComments(comments[1..])
  }

  function LatestCreated(comments: seq<Comment>): (latest: int)
    requires comments != []
    ensures forall c :: c in comments ==> c.createdAt <= latest
    ensures exists c :: c in comments && c.createdAt == latest
  {
    if |comments| == 1 then comments[0].createdAt
    else Max(comments[0].createdAt, LatestCreated(comments[1..]))
  }

  /** The batch after newly observed human comments joined it; each extends the deadline. */
  function GrowBatch(batch: Batch, humans: seq<Comment>): Batch
    requires humans != []
  {
    var arrived := set c | c in humans;
    var deadline := LatestCreated(humans) + FEEDBACK_DEBOUNCE_MS;
    if batch.NoBatch? then Batch(arrived, deadline)
    else Batch(batch.comments + arrived, Max(batch.deadline, deadline))
  }

  function IngestPendingFeedbackBatch(it: Item, snap: Snapshot): Item {
    var humans := HumanComments(snap.newComments);
    if humans == [] then it
    else it.(feedback := it.feedback.(batch := GrowBatch(it.feedback.batch, humans)))
  }

  predicate HasBatch(it: Item) {
    it.feedback.batch.Batch? && it.feedback.batch.comments != {}
  }

  predicate BatchDue(it: Item, now: int) {
    HasBatch(it) && now >= it.feedback.batch.deadline
  }

  /** A feedback message waits for a worker. */
  predicate HandoffPending(it: Item) {
    it.feedback.needsResponse && !it.feedback.message.NoMessage?
  }

  function FeedbackBatchDeliveryMode(it: Item, snap: Snapshot): DeliveryMode {
    if it.session.parked then Relaunch
    else if !it.state.ReviewPending? then Deliver
    else if it.session.workspace.NoWorkspace? then Relaunch
    else match LivenessOf(it, snap)
      case Dead => Relaunch
      case Alive => Deliver
      case Debouncing => Wait
      case UnknownLiveness => Wait
  }

  /** The liveness sample feedbackBatchDeliveryMode takes on its last branch. */
  function SampleForDelivery(it: Item, snap: Snapshot): Item {
    if it.session.parked || !it.state.ReviewPending? || it.session.workspace.NoWorkspace? then it
    else CountLiveness(it, snap)
  }

  /** The batch becomes the pending feedback message. */
  function TakeBatch(it: Item, snap: Snapshot): Item
    requires it.feedback.batch.Batch?
  {
    it.(feedback := Feedback(true, BatchFeedback(it.feedback.batch.comments), false, NoBatch),
        review := it.review.(lastReviewed := OrRef(snap.headSha, it.review.lastReviewed)))
  }

  /** New feedback withdraws a completed review; an item about to merge goes back to review-pending. */
  function ReopenReview(it: Item, now: int): Move {
    var reopened := it.(review := it.review.(completed := false));
    if it.review.completed && (it.state.CiPassed? || it.state.Merging?) then Transition(reopened, ReviewPending, now)
    else Moved(reopened)
  }

  /** The `deliver` branch of resolvePendingFeedbackBatch. */
  function DeliverBatch(it: Item, snap: Snapshot, now: int): Step {
    var reopened :- ReopenReview(it, now);
    var sent := [SendMessage(it.id, it.feedback.message)];
    if reopened.session.workspace.NoWorkspace? then Step(reopened, sent)
    else
      var seen := CountLiveness(reopened, snap);
      Step(if LivenessOf(reopened, snap).Alive? then seen.(feedback := seen.feedback.(armed := true)) else seen, sent)
  }

  function ResolvePendingFeedbackBatch(it: Item, snap: Snapshot, now: int): Step {
    if !HasBatch(it) then Declined
    else if !BatchDue(it, now) then Step(it, [])
    else
      var mode := FeedbackBatchDeliveryMode(it, snap);
      var seen := SampleForDelivery(it, snap);
      if mode.Wait? then Step(seen, [])
      else
        var taken := TakeBatch(seen, snap);
        if mode.Relaunch? then RespawnForFeedback(taken, taken.feedback.message, now)
        else DeliverBatch(taken, snap, now)
  }

  /** The part of continuePendingFeedbackHandoff that holds the item out of the merge path. */
  function HoldForHandoff(it: Item, snap: Snapshot, now: int): Move {
    var stamped := it.(review := it.review.(lastReviewed := OrRef(snap.headSha, it.review.lastReviewed)));
    if it.state.CiPassed? || it.state.Merging? then
      Transition(stamped.(review := stamped.review.(completed := false)), ReviewPending, now)
    else Moved(stamped)
  }

  function ContinuePendingFeedbackHandoff(it: Item, snap: Snapshot, now: int): Step {
    if !HandoffPending(it) then Declined
    else
      var held :- HoldForHandoff(it, snap, now);
      if held.session.parked || held.session.workspace.NoWorkspace? then
        RespawnForFeedback(held, it.feedback.message, now)
      else
        var seen := CountLiveness(held, snap);
        match LivenessOf(held, snap)
        case Dead => RespawnForFeedback(seen, it.feedback.message, now)
        case Alive => Step(seen.(feedback := seen.feedback.(armed := true)), [SendMessage(it.id, it.feedback.message)])
        case Debouncing => Step(seen, [])
        case UnknownLiveness => Step(seen, [])
  }

  /** The code has not changed since the last review. */
  predicate UnchangedSinceReview(it: Item, snap: Snapshot) {
    it.review.lastReviewed.Ref? && snap.headSha == it.review.lastReviewed
  }

  /** The approved commit is the current head. */
  predicate HeadIsApproved(it: Item, snap: Snapshot) {
    it.review.lastApproved.Ref? && snap.headSha == it.review.lastApproved
  }

  /** A no-new-info signal discards the feedback and restores the settled review gate. */
  function Settle(it: Item, snap: Snapshot): Item {
    it.(feedback := it.feedback.(batch := NoBatch, message := NoMessage, needsResponse := false),
        pr := it.pr.(number := OrRef(snap.prNumber, it.pr.number)),
        review := it.review.(completed := it.review.completed || HeadIsApproved(it, snap)),
        session := it.session.(parked := it.session.parked || it.session.workspace.Workspace?))
  }

  function TryHandleNoNewInfo(it: Item, snap: Snapshot, now: int): Step {
    if !snap.noNewInfo || !UnchangedSinceReview(it, snap) then Declined
    else
      var settled :- Transition(Settle(it, snap), ReviewPending, now);
      Step(settled,
           if it.session.workspace.Workspace? && !it.session.parked then [ClearNoNewInfo(it.id), WorkspaceClose(it.id)]
           else [ClearNoNewInfo(it.id)])
  }

  // ---- Merge evaluation -------------------------------------------------------------------

  /** evaluateMerge while the review is open: launch a round, unless the code is unchanged or the rounds are used up. */
  function LaunchReviewRound(cfg: Config, it: Item, snap: Snapshot, now: int): Step {
    if it.state.Reviewing? || UnchangedSinceReview(it, snap) then Step(it, [])
    else if it.review.round + 1 > cfg.maxReviewRounds then
      var stuck :- Transition(it, Stuck, now);
      Step(stuck, [])
    else
      var reviewing :- Transition(it.(review := it.review.(round := it.review.round + 1)), Reviewing, now);
      Step(reviewing, [LaunchReview(it.id, it.pr.number), SetCommitStatus(it.id, it.pr.number, InProgress)])
  }

  /** A human has to act before the item may merge. */
  predicate NeedsHuman(cfg: Config, it: Item, snap: Snapshot) {
    it.workItem.requiresManualReview || snap.reviewDecision.ChangesRequested? || cfg.mergeStrategy.Manual?
  }

  /** evaluateMerge with the review complete: park for a human, or merge. */
  function HoldOrMerge(cfg: Config, it: Item, snap: Snapshot, now: int): Step {
    if NeedsHuman(cfg, it, snap) then
      var held :- Transition(it, ReviewPending, now);
      if held.review.completed && !snap.reviewDecision.ChangesRequested? && !held.session.parked then
        Step(held.(session := held.session.(parked := true)), [WorkspaceClose(it.id)])
      else Step(held, [])
    else
      var merging :- Transition(it, Merging, now);
      Step(merging, [Merge(it.id, it.pr.number, cfg.mergeStrategy.Bypass?)])
  }

  function EvaluateMerge(cfg: Config, it: Item, snap: Snapshot, now: int): Step {
    var noNewInfo :- TryHandleNoNewInfo(it, snap, now);
    if noNewInfo.Step? then noNewInfo
    else
      var handoff :- ContinuePendingFeedbackHandoff(it, snap, now);
      if handoff.Step? then handoff
      else
        var feedback :- ResolvePendingFeedbackBatch(it, snap, now);
        if feedback.Step? then feedback
        else
          var gated := it.(review := it.review.(completed := it.review.completed || cfg.skipReview));
          if !gated.review.completed then LaunchReviewRound(cfg, gated, snap, now)
          else HoldOrMerge(cfg, gated, snap, now)
  }

  // ---- State handlers ---------------------------------------------------------------------

  function CountCiFailure(it: Item): Item {
    it.(ci := it.ci.(failCount := it.ci.failCount + 1, failCountTotal := it.ci.failCountTotal + 1))
  }

  /** Enter ci-failed, count the failure and ask for a rebase or a fix. */
  function FailCi(cfg: Config, it: Item, snap: Snapshot, now: int): Step {
    var failed :- Transition(it, CiFailed, now);
    if snap.isMergeable.No? then PlanRebaseConflictAction(cfg, CountCiFailure(failed), now)
    else EmitCiFailureNotification(CountCiFailure(failed), now)
  }

  /** Regress to ci-pending because CI restarted. */
  function RestartCi(it: Item, snap: Snapshot, before: seq<Action>, now: int): Step {
    var pending :- Transition(it, CiPending, now);
    Step(ResetRebaseRetryCooldown(pending, OrTime(snap.eventTime, snap.lastCommitTime), now), before)
  }

  /** Enter ci-passed and evaluate the merge in the same poll. */
  function PassAndEvaluate(cfg: Config, it: Item, snap: Snapshot, before: seq<Action>, now: int): Step {
    var passed :- Transition(it, CiPassed, now);
    EvaluateMerge(cfg, passed, snap, now).After(before)
  }

  function HandleCiPending(cfg: Config, it: Item, snap: Snapshot, now: int): Step {
    if snap.ciStatus.Fail? && !IsCiFailTrustworthy(it.ci.pendingSince, now, cfg.ciPendingFailGraceMs) then Step(it, [])
    else if snap.ciStatus.Fail? then FailCi(cfg, it, snap, now)
    else if snap.isMergeable.No? then PlanRebaseConflictAction(cfg, it, now)
    else if snap.ciStatus.Pass? then PassAndEvaluate(cfg, it, snap, [], now)
    else ResolvePendingFeedbackBatch(it, snap, now).OrStay(it)
  }

  function HandleCiPassed(cfg: Config, it: Item, snap: Snapshot, now: int): Step {
    if snap.ciStatus.Fail? then FailCi(cfg, it, snap, now)
    else if snap.ciStatus.InProgress? then RestartCi(it, snap, [], now)
    else if snap.isMergeable.No? then
      var pending :- Transition(it, CiPending, now);
      PlanRebaseConflictAction(cfg, pending, now)
    else EvaluateMerge(cfg, it, snap, now)
  }

  /** The notification flag resets when the commit fingerprint changed since it was sent. */
  predicate StillNotified(it: Item) {
    it.ci.notified && !ShouldRenotifyCiFailure(it.pr.lastCommitTime, OrTime(it.ci.notifiedAt, Null))
  }

  /** The notification part of handleCiFailed. */
  function NotifyStillFailing(it: Item, now: int): Step {
    if StillNotified(it) then Step(it, [])
    else EmitCiFailureNotification(it, now)
  }

  predicate CiFixUnacknowledged(it: Item, snap: Snapshot, now: int) {
    it.ci.notified && it.ci.notifyWallAt.At? && IsCiFixAckTimedOut(it.ci.notifyWallAt.ms, snap.heartbeatAt, now, CI_FIX_ACK_MS)
  }

  /** handleCiFailed once the status is neither recovering nor a merge conflict. */
  function HandleCiStillFailing(it: Item, snap: Snapshot, now: int): Step {
    var notified := NotifyStillFailing(it, now);
    var seen := CountLiveness(notified.item, snap);
    if LivenessOf(notified.item, snap).Dead? || CiFixUnacknowledged(it, snap, now) then RespawnCiFixWorker(seen, now)
    else ResolvePendingFeedbackBatch(seen, snap, now).OrStay(seen).After(notified.actions)
  }

  function HandleCiFailed(cfg: Config, it: Item, snap: Snapshot, now: int): Step {
    if it.ci.failCount > cfg.maxCiRetries then
      var stuck :- Transition(it, Stuck, now);
      if snap.workerAlive.Yes? then Step(stuck.(session := stuck.session.(parked := true)), [])
      else Step(stuck, [WorkspaceClose(it.id)])
    else if snap.ciStatus.Pass? then
      var passed :- Transition(it, CiPassed, now);
      HandleCiPassed(cfg, passed, snap, now)
    else if snap.ciStatus.InProgress? then RestartCi(it, snap, [], now)
    else if snap.isMergeable.No? then PlanRebaseConflictAction(cfg, it, now)
    else HandleCiStillFailing(it, snap, now)
  }

  /** Enter ci-pending from a pull request or a worker signal and process CI in the same poll. */
  function ResumeCi(cfg: Config, it: Item, snap: Snapshot, signal: seq<Action>, now: int): Step {
    var pending :- Transition(it, CiPending, now);
    var sync := if it.pr.baseBranch.Ref? then [SyncStackComments(it.id)] else [];
    HandleCiPending(cfg, pending, snap, now).After(signal + sync)
  }

  /** The worker disagrees: record the round and reopen the review of the same commit. */
  function RecordPushback(it: Item, snap: Snapshot): Item {
    it.(review := it.review.(pushbacks := it.review.pushbacks + (if snap.pushback.Ref? then [snap.pushback.n] else []),
                             lastReviewed := Absent, completed := false),
        feedback := it.feedback.(needsResponse := false, message := NoMessage),
        pr := it.pr.(number := OrRef(snap.prNumber, it.pr.number)))
  }

  function TryHandlePushback(cfg: Config, it: Item, snap: Snapshot, now: int): Step {
    if !snap.pushback.Ref? || !UnchangedSinceReview(it, snap) then Declined
    else ResumeCi(cfg, RecordPushback(it, snap), snap, [ClearPushback(it.id)], now)
  }

  /** The worker answered the feedback without changing code. */
  function FinishFeedback(it: Item): Item {
    it.(review := it.review.(lastReviewed := Absent),
        feedback := it.feedback.(needsResponse := false, message := NoMessage))
  }

  function TrackPr(it: Item, snap: Snapshot): Item {
    it.(pr := it.pr.(number := snap.prNumber))
  }

  /** handleImplementing when an open pull request is visible. */
  function HandleOpenPr(cfg: Config, it: Item, snap: Snapshot, now: int): Step {
    if !UnchangedSinceReview(it, snap) then ResumeCi(cfg, TrackPr(it, snap), snap, [], now)
    else
      var noNewInfo :- TryHandleNoNewInfo(it, snap, now);
      if noNewInfo.Step? then noNewInfo
      else
        var pushback :- TryHandlePushback(cfg, it, snap, now);
        if pushback.Step? then pushback
        else if snap.feedbackDone then
          ResumeCi(cfg, TrackPr(FinishFeedback(it), snap), snap, [ClearFeedbackDone(it.id)], now)
        else Declined
  }

  /** The last positive sign of the worker that the launch timeout counts from. */
  function LaunchBaseline(entry: Item, it: Item): int {
    if entry.session.lastAliveAt.At? then entry.session.lastAliveAt.ms
    else if it.session.lastAliveAt.At? then it.session.lastAliveAt.ms
    else it.lastTransition
  }

  /** The commit-based timeouts of handleImplementing. */
  predicate WorkTimedOut(cfg: Config, entry: Item, it: Item, snap: Snapshot, now: int) {
    var commit := CommitTime(it, snap);
    if commit.At? then TimedOut(commit.ms, now, cfg.activityTimeoutMs)
    else if snap.workerAlive.Yes? then TimedOut(it.lastTransition, now, cfg.activityTimeoutMs)
    else TimedOut(LaunchBaseline(entry, it), now, cfg.launchTimeoutMs)
  }

  /** The liveness bookkeeping of handleImplementing. */
  function MarkWorking(it: Item, snap: Snapshot, now: int): Item {
    if snap.workerAlive.Yes? then it.(session := it.session.(notAliveCount := 0, lastAliveAt := At(now)))
    else if snap.prNumber.Absent? then CountLiveness(it, snap)
    else it
  }

  /** handleImplementing without a usable pull request: liveness, heartbeat and timeouts. */
  function HandleWorking(cfg: Config, it: Item, snap: Snapshot, now: int): Step {
    var seen := MarkWorking(it, snap, now);
    if snap.prNumber.Absent? && LivenessOf(it, snap).Dead? then
      if IsRecoverableHeadlessStop(seen, snap) then RecoverHeadlessWorker(seen, now) else StuckOrRetry(cfg, seen, now)
    else if IsHeartbeatActive(snap.heartbeatAt, now, HEARTBEAT_MS) then Step(seen, [])
    else if WorkTimedOut(cfg, it, seen, snap, now) then OnTimeout(cfg, seen, snap, now)
    else if HandoffPending(seen) && snap.inboxWaitingSince.At? && InboxWaitStalled(cfg, seen, snap, now) then
      RespawnForFeedback(seen, seen.feedback.message, now)
    else Step(seen, [])
  }

  function HandleImplementing(cfg: Config, it: Item, snap: Snapshot, now: int): Step {
    if snap.prNumber.Ref? && snap.prState.Open? then
      var open :- HandleOpenPr(cfg, it, snap, now);
      if open.Step? then open else HandleWorking(cfg, TrackPr(it, snap), snap, now)
    else HandleWorking(cfg, it, snap, now)
  }

  function HandleLaunching(cfg: Config, it: Item, snap: Snapshot, now: int): Step {
    var seen := CountLiveness(it, snap);
    match LivenessOf(it, snap)
    case Alive =>
      var implementing :- Transition(seen, Implementing, now);
      Step(implementing, [])
    case Dead => StuckOrRetry(cfg, seen, now)
    case Debouncing => Step(seen, [])
    case UnknownLiveness =>
      if !TimedOut(seen.lastTransition, now, LAUNCHING_MS) then Step(seen, [])
      else if DefersTimeout(cfg, seen, now) then Step(OpenGraceWindow(cfg, seen, now), [])
      else StuckOrRetry(cfg, seen, now)
  }

  function HandleRebasing(it: Item, snap: Snapshot, now: int): Step {
    var ciReported := snap.ciStatus.InProgress? || snap.ciStatus.Pass? || snap.ciStatus.Fail?;
    if IsHeartbeatActive(snap.heartbeatAt, now, HEARTBEAT_MS) then Step(it, [])
    else if IsEventFresherThan(snap.eventTime, it.lastTransition) && ciReported then
      RestartCi(it, snap, [CleanRebaser(it.id)], now)
    else if it.rebase.workspace.NoWorkspace? then Step(it, [])
    else if !LivenessOf(it, snap).Dead? then Step(CountLiveness(it, snap), [])
    else
      var stuck :- Transition(CountLiveness(it, snap), Stuck, now);
      Step(stuck, [CleanRebaser(it.id)])
  }

  /** handleReviewing without a verdict. */
  function HandleReviewRunning(cfg: Config, it: Item, snap: Snapshot, now: int): Step {
    var seen := if it.review.workspace.Workspace? then CountLiveness(it, snap) else it;
    var clean := [CleanReview(it.id)];
    if it.review.completed && cfg.skipReview then
      PassAndEvaluate(cfg, it, snap, clean + [SetCommitStatus(it.id, it.pr.number, Pass)], now)
    else if it.review.workspace.Workspace? && LivenessOf(it, snap).Dead? then
      PassAndEvaluate(cfg, seen, snap, clean + [SetCommitStatus(it.id, it.pr.number, Fail)], now)
    else if snap.ciStatus.Fail? then
      var failed :- Transition(seen, CiFailed, now);
      if snap.isMergeable.No? then PlanRebaseConflictAction(cfg, CountCiFailure(failed), now).After(clean)
      else Step(CountCiFailure(failed), clean + [NotifyCiFailure(it.id, it.pr.number)])
    else if snap.isMergeable.No? then
      var pending :- Transition(seen, CiPending, now);
      PlanRebaseConflictAction(cfg, pending, now).After(clean)
    else Step(seen, [])
  }

  function HandleReviewing(cfg: Config, it: Item, snap: Snapshot, now: int): Step {
    match snap.reviewVerdict
    case Approve =>
      var approved := it.(review := it.review.(completed := true, lastReviewed := snap.headSha, lastApproved := snap.headSha));
      PassAndEvaluate(cfg, approved, snap,
                      [CleanReview(it.id), PostReview(it.id, it.pr.number, Approve), SetCommitStatus(it.id, it.pr.number, Pass)],
                      now)
    case RequestChanges =>
      var held :- Transition(it.(review := it.review.(lastReviewed := snap.headSha)), ReviewPending, now);
      var message := ReviewFeedback(it.review.round);
      Step(held.(feedback := held.feedback.(message := message)),
           [CleanReview(it.id), PostReview(it.id, it.pr.number, RequestChanges),
            SetCommitStatus(it.id, it.pr.number, Fail), NotifyReview(it.id, message)])
    case NoVerdict => HandleReviewRunning(cfg, it, snap, now)
  }

  /** The ci-failed branch of handleReviewPending: parked items skip the notification. */
  function FailCiFromReview(cfg: Config, it: Item, snap: Snapshot, before: seq<Action>, now: int): Step {
    var failed :- Transition(it, CiFailed, now);
    if snap.isMergeable.No? then PlanRebaseConflictAction(cfg, CountCiFailure(failed), now).After(before)
    else if it.session.parked then RespawnCiFixWorker(CountCiFailure(failed), now)
    else EmitCiFailureNotification(CountCiFailure(failed), now).After(before)
  }

  /** handleReviewPendingStall: forget the verdict of a reviewer that never answered. */
  function ForgetReview(it: Item): Item {
    it.(review := it.review.(completed := false, lastReviewed := Absent), session := it.session.(parked := false))
  }

  /** handleReviewPending's conflict nudge and stalled-reviewer recovery. */
  function NudgeOrRecoverReview(cfg: Config, it: Item, snap: Snapshot, before: seq<Action>, now: int): Step {
    var nudged := if snap.isMergeable.No? then PlanRebaseConflictAction(cfg, it, now) else Step(it, []);
    if snap.hasReviewerComment.No? && InboxWaitStalled(cfg, it, snap, now) && it.review.round < cfg.maxReviewRounds then
      PassAndEvaluate(cfg, ForgetReview(nudged.item), snap, before + nudged.actions, now)
    else nudged.After(before)
  }

  /** Relaunch the implementer when nobody is working on the review feedback. */
  function AwaitFix(it: Item, snap: Snapshot, before: seq<Action>, now: int): Step {
    var seen := if it.session.workspace.NoWorkspace? then it else CountLiveness(it, snap);
    if it.session.workspace.NoWorkspace? || LivenessOf(it, snap).Dead? then
      RespawnForFeedback(seen, if it.feedback.message.NoMessage? then ReviewRequestedChanges else it.feedback.message, now)
    else Step(seen, before)
  }

  /** GitHub or the AI review allows the merge that review-pending waits for. */
  predicate MergeAllowed(cfg: Config, it: Item, snap: Snapshot) {
    snap.ciStatus.Pass? && (snap.reviewDecision.Approved? || (it.review.completed && !cfg.mergeStrategy.Manual?))
  }

  /** handleReviewPending once no signal, handoff or batch applies. */
  function HandleSettledReview(cfg: Config, it: Item, snap: Snapshot, before: seq<Action>, now: int): Step {
    if MergeAllowed(cfg, it, snap) then
      if it.session.workspace.Workspace? then Step(it, before) else EvaluateMerge(cfg, it, snap, now).After(before)
    else if it.session.parked && snap.reviewDecision.ChangesRequested? then
      RespawnForFeedback(it, if it.feedback.message.NoMessage? then GitHubRequestedChanges else it.feedback.message, now)
    else if snap.ciStatus.Fail? then FailCiFromReview(cfg, it, snap, before, now)
    else if !it.review.completed && UnchangedSinceReview(it, snap) then AwaitFix(it, snap, before, now)
    else if !it.review.completed && snap.ciStatus.InProgress? then RestartCi(it, snap, before, now)
    else if !it.review.completed && snap.ciStatus.Pass? then PassAndEvaluate(cfg, it, snap, before, now)
    else NudgeOrRecoverReview(cfg, it, snap, before, now)
  }

  /** handleReviewPending from the feedback handoff on. */
  function HandleAnsweredReview(cfg: Config, it: Item, snap: Snapshot, before: seq<Action>, now: int): Step {
    var handoff :- ContinuePendingFeedbackHandoff(it, snap, now);
    if handoff.Step? then handoff
    else
      var feedback :- ResolvePendingFeedbackBatch(it, snap, now);
      if feedback.Step? then feedback else HandleSettledReview(cfg, it, snap, before, now)
  }

  /** handleReviewPending after a feedback-done signal on unchanged code. */
  function HandleFeedbackDone(cfg: Config, it: Item, snap: Snapshot, now: int): Step {
    var done := FinishFeedback(it);
    var signal := [ClearFeedbackDone(it.id)];
    if snap.ciStatus.InProgress? then RestartCi(done, snap, signal, now)
    else if snap.ciStatus.Pass? then PassAndEvaluate(cfg, done, snap, signal, now)
    else HandleAnsweredReview(cfg, done, snap, signal, now)
  }

  function HandleReviewPending(cfg: Config, it: Item, snap: Snapshot, now: int): Step {
    if it.review.completed && cfg.skipReview then
      PassAndEvaluate(cfg, it, snap, [SetCommitStatus(it.id, it.pr.number, Pass)], now)
    else
      var noNewInfo :- TryHandleNoNewInfo(it, snap, now);
      if noNewInfo.Step? then noNewInfo
      else
        var pushback :- TryHandlePushback(cfg, it, snap, now);
        if pushback.Step? then pushback
        else if snap.feedbackDone && UnchangedSinceReview(it, snap) then HandleFeedbackDone(cfg, it, snap, now)
        else HandleAnsweredReview(cfg, it, snap, [], now)
  }

  function HandleMerging(cfg: Config, it: Item, snap: Snapshot, now: int): Step {
    var handoff :- ContinuePendingFeedbackHandoff(it, snap, now);
    if handoff.Step? then handoff
    else
      var feedback :- ResolvePendingFeedbackBatch(it, snap, now);
      if feedback.Step? then feedback
      else if snap.prState.Closed? then
        var stuck :- Transition(it, Stuck, now);
        Step(stuck, [])
      else if snap.prState.Open? && snap.ciStatus.Pass? then
        Step(it, [Merge(it.id, it.pr.number, cfg.mergeStrategy.Bypass?)])
      else Step(it, [])
  }

  /** CI failed on the default branch after the merge. */
  function FailForward(it: Item, actions: seq<Action>, now: int): Step {
    var failed :- Transition(it.(repair := it.repair.(failCount := it.repair.failCount + 1)), FixForwardFailed, now);
    Step(failed, actions)
  }

  function Finish(it: Item, actions: seq<Action>, now: int): Step {
    var done :- Transition(it, Done, now);
    Step(done, actions)
  }

  function HandleMerged(cfg: Config, it: Item, snap: Snapshot, now: int): Step {
    var close := if it.session.workspace.Workspace? then [WorkspaceClose(it.id)] else [];
    if !cfg.fixForward || snap.mergeCommitCi.Pass? then Finish(it, close, now)
    else if snap.mergeCommitCi.Fail? then FailForward(it, close, now)
    else if it.repair.mergeCommit.Ref? then
      var verifying :- Transition(it, ForwardFixPending, now);
      Step(verifying, close)
    else Step(it, close)
  }

  function HandleForwardFixPending(it: Item, snap: Snapshot, now: int): Step {
    var grace := if snap.hasPushWorkflows.No? then MERGE_CI_NO_PUSH_MS else MERGE_CI_MS;
    if snap.mergeCommitCi.Fail? then FailForward(it, [], now)
    else if snap.mergeCommitCi.Pass? || (snap.mergeCommitCi.InProgress? && TimedOut(it.lastTransition, now, grace)) then
      Finish(it, [], now)
    else Step(it, [])
  }

  function HandleFixForwardFailed(cfg: Config, it: Item, snap: Snapshot, now: int): Step {
    if it.repair.failCount >= cfg.maxFixForwardRetries then
      var stuck :- Transition(it, Stuck, now);
      Step(stuck, [])
    else if snap.mergeCommitCi.Pass? then Finish(it, [], now)
    else if it.repair.mergeCommit.Ref? then
      var fixing :- Transition(it, FixingForward, now);
      Step(fixing, [LaunchForwardFixer(it.id)])
    else Step(it, [])
  }

  /** A repair pull request is visible. */
  predicate RepairPrVisible(snap: Snapshot) {
    snap.prNumber.Ref? && (snap.prState.Open? || snap.prState.PrMerged?)
  }

  /** The repair pull request replaces the active one and restarts the review counters. */
  function AdoptRepairPr(it: Item, pr: nat): Item {
    var replaced := it.pr.number;
    var prior := if replaced.Ref? && replaced.n != pr && replaced.n !in it.pr.prior then it.pr.prior + [replaced.n] else it.pr.prior;
    it.(pr := it.pr.(number := Ref(pr), prior := prior),
        repair := it.repair.(mergeCommit := Absent),
        review := it.review.(completed := false, round := 0),
        ci := it.ci.(failCount := 0, notified := false, notifiedAt := Undefined),
        rebase := it.rebase.(requested := false),
        session := it.session.(notAliveCount := 0),
        mergeFailCount := 0)
  }

  function HandleFixingForward(cfg: Config, it: Item, snap: Snapshot, now: int): Step {
    var clean := if it.repair.workspace.Workspace? then [CleanForwardFixer(it.id)] else [];
    if RepairPrVisible(snap) then
      var adopted := AdoptRepairPr(it, snap.prNumber.n);
      if snap.prState.PrMerged? then
        var merged :- Transition(adopted, Merged, now);
        Step(merged, clean)
      else
        var pending :- Transition(adopted, CiPending, now);
        HandleCiPending(cfg, pending, snap, now)
    else if snap.mergeCommitCi.Pass? then Finish(it, clean, now)
    else if it.repair.workspace.NoWorkspace? then Step(it, [])
    else if !LivenessOf(it, snap).Dead? then Step(CountLiveness(it, snap), [])
    else
      var stuck :- Transition(CountLiveness(it, snap), Stuck, now);
      Step(stuck, [CleanForwardFixer(it.id)])
  }

  // ---- One item, one poll -----------------------------------------------------------------

  /** EXTERNAL_MERGE_STATES. */
  predicate DetectsExternalMerge(s: State) {
    s.Implementing? || s.CiPending? || s.CiPassed? || s.CiFailed? || s.ReviewPending? || s.Reviewing? || s.Merging?
  }

  /** REBASE_TRACKING_STATES. */
  predicate TracksRebase(s: State) {
    s.CiPending? || s.CiPassed? || s.CiFailed? || s.ReviewPending? || s.Reviewing?
  }

  predicate ExternallyMerged(it: Item, snap: Snapshot) {
    DetectsExternalMerge(it.state) && snap.prState.PrMerged?
  }

  function InterceptExternalMerge(it: Item, snap: Snapshot, now: int): Step {
    var merged :- Transition(it.(pr := it.pr.(number := OrRef(it.pr.number, snap.prNumber))), Merged, now);
    Step(merged, [Clean(it.id)]
                 + (if it.review.workspace.Workspace? then [CleanReview(it.id)] else [])
                 + (if it.repair.workspace.Workspace? then [CleanForwardFixer(it.id)] else []))
  }

  function UpdateRebaseTracking(it: Item, snap: Snapshot, now: int): Item {
    if !TracksRebase(it.state) then it
    else if snap.isMergeable.Yes? then ClearRebaseRetryState(it)
    else if HasCommitProgress(it, snap) then ResetRebaseRetryCooldown(it, OrTime(snap.lastCommitTime, snap.eventTime), now)
    else it
  }

  /** transitionItem starts by recording the merge commit the poll saw. */
  function RecordMergeCommit(it: Item, snap: Snapshot): Item {
    it.(repair := it.repair.(mergeCommit := OrRef(snap.mergeCommit, it.repair.mergeCommit)))
  }

  /** The item its handler sees: merge commit, rebase tracking and new comments are taken in first. */
  function Seen(it: Item, snap: Snapshot, now: int): Item {
    IngestPendingFeedbackBatch(UpdateRebaseTracking(RecordMergeCommit(it, snap), snap, now), snap)
  }

  /** The handler of the item's state. */
  function Handle(cfg: Config, it: Item, snap: Snapshot, now: int): Step {
    match it.state
    case Launching => HandleLaunching(cfg, it, snap, now)
    case Implementing => HandleImplementing(cfg, it, snap, now)
    case CiPending => HandleCiPending(cfg, it, snap, now)
    case CiPassed => HandleCiPassed(cfg, it, snap, now)
    case CiFailed => HandleCiFailed(cfg, it, snap, now)
    case Rebasing => HandleRebasing(it, snap, now)
    case Reviewing => HandleReviewing(cfg, it, snap, now)
    case ReviewPending => HandleReviewPending(cfg, it, snap, now)
    case Merging => HandleMerging(cfg, it, snap, now)
    case Merged => HandleMerged(cfg, it, snap, now)
    case ForwardFixPending => HandleForwardFixPending(it, snap, now)
    case FixForwardFailed => HandleFixForwardFailed(cfg, it, snap, now)
    case FixingForward => HandleFixingForward(cfg, it, snap, now)
    case Queued => Step(it, [])
    case Ready => Step(it, [])
    case Done => Step(it, [])
    case Blocked => Step(it, [])
    case Stuck => Step(it, [])
  }

  /** transitionItem up to its effects on other items. */
  function Body(cfg: Config, it: Item, snap: Snapshot, now: int): Step {
    if ExternallyMerged(it, snap) then InterceptExternalMerge(RecordMergeCommit(it, snap), snap, now)
    else Handle(cfg, Seen(it, snap, now), snap, now)
  }

  /** The last step of transitionItem: a due batch is resolved in whatever state remains. */
  function Tail(it: Item, snap: Snapshot, now: int): Step {
    ResolvePendingFeedbackBatch(it, snap, now).OrStay(it)
  }

  /** transitionItem as far as it concerns the item itself. */
  function TransitionItem(cfg: Config, it: Item, snap: Snapshot, now: int): Step {
    var body :- Body(cfg, it, snap, now);
    if body.Declined? || ExternallyMerged(it, snap) then body
    else Tail(body.item, snap, now).After(body.actions)
  }
}
