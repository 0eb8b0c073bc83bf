/**
 * Where a poll leaves an item: the state `transitionItem` ends in, for every state, snapshot and time,
 * through all the handlers it chains and the batch of comments its last step delivers (core/orchestrator.ts).
 */
module Destinations {
  import opened OrchestratorTypes
  import opened OrchestratorGuards
  import opened Lifecycle
  import opened LifecycleFacts
  import opened LifecycleSteps

  function Minutes(n: nat): nat {
    n * 60 * 1000
  }

  /** The worker counts as dead by the given number of further readings. */
  predicate DeadBy(it: Item, snap: Snapshot, readings: nat) {
    snap.workerAlive.No? && it.session.notAliveCount + readings >= 5
  }

  /** Nobody works in the item's session; a poll in which comments fall due reads twice. */
  predicate Abandoned(it: Item, snap: Snapshot, now: int) {
    it.session.workspace.NoWorkspace? || DeadBy(it, snap, if BatchDue(it, now) then 2 else 1)
  }

  /** A human has to look at the item, asked for changes, or merges it. */
  predicate WaitsForHuman(cfg: Config, it: Item, snap: Snapshot) {
    it.workItem.requiresManualReview || snap.reviewDecision == ChangesRequested || cfg.mergeStrategy == Manual
  }

  /** The next review round of an item that stays in `waits` while its code is unchanged. */
  function NextRound(cfg: Config, it: Item, snap: Snapshot, waits: State): State {
    if UnchangedSinceReview(it, snap) then waits
    else if it.review.round < cfg.maxReviewRounds then Reviewing
    else Stuck
  }

  function MergedUnlessHeld(cfg: Config, it: Item, snap: Snapshot): State {
    if WaitsForHuman(cfg, it, snap) then ReviewPending else Merging
  }

  /** An item whose checks pass: feedback comes first, then the review, then the human, then the merge. */
  function Evaluated(cfg: Config, it: Item, snap: Snapshot, now: int): State {
    if snap.noNewInfo && UnchangedSinceReview(it, snap) then ReviewPending
    else if HandoffPending(it) then (if Abandoned(it, snap, now) then Ready else ReviewPending)
    else if HasBatch(it) then (if BatchDue(it, now) && it.review.completed then ReviewPending else CiPassed)
    else if it.review.completed || cfg.skipReview then MergedUnlessHeld(cfg, it, snap)
    else NextRound(cfg, it, snap, CiPassed)
  }

  /** An item that waits for CI, since `since`: a failure counts once the grace period is over. */
  function Checked(cfg: Config, it: Item, since: Time, snap: Snapshot, now: int): State {
    if snap.ciStatus.Fail? && (since.At? ==> now >= since.ms + cfg.ciPendingFailGraceMs) then CiFailed
    else if snap.ciStatus.Pass? && !snap.isMergeable.No? then Evaluated(cfg, it, snap, now)
    else CiPending
  }

  function RetriedOrStuck(cfg: Config, it: Item): State {
    if it.retryCount < cfg.maxRetries then Ready else Stuck
  }

  /** The first timeout only opens the grace window; later ones wait until it is over. */
  predicate InGrace(cfg: Config, it: Item, now: int) {
    cfg.gracePeriodMs > 0 && (it.session.timeoutDeadline.At? ==> now < it.session.timeoutDeadline.ms)
  }

  function FromLaunching(cfg: Config, it: Item, snap: Snapshot, now: int): State {
    match snap.workerAlive
    case Yes => Implementing
    case No => if it.session.notAliveCount >= 4 then RetriedOrStuck(cfg, it) else Launching
    case NotAsked =>
      if now > it.lastTransition + Minutes(5) && !InGrace(cfg, it, now) then RetriedOrStuck(cfg, it) else Launching
  }

  /** The time of the newest commit that is known. */
  function LastCommit(it: Item, snap: Snapshot): Time {
    if snap.lastCommitTime.At? then snap.lastCommitTime else it.pr.lastCommitTime
  }

  /** No commit for too long, counted from the last one, or from when the worker started or last showed a sign of life. */
  predicate Overdue(cfg: Config, it: Item, snap: Snapshot, now: int) {
    var commit := LastCommit(it, snap);
    if commit.At? then now > commit.ms + cfg.activityTimeoutMs
    else if snap.workerAlive.Yes? then now > it.lastTransition + cfg.activityTimeoutMs
    else now > (if it.session.lastAliveAt.At? then it.session.lastAliveAt.ms else it.lastTransition) + cfg.launchTimeoutMs
  }

  predicate Heard(snap: Snapshot, now: int) {
    snap.heartbeatAt.At? && now < snap.heartbeatAt.ms + Minutes(5)
  }

  /** Nothing happened for too long since the item moved, the wait began and the last commit. */
  predicate Stalled(cfg: Config, it: Item, snap: Snapshot, now: int) {
    && cfg.inboxWaitExpireMs > 0
    && now > it.lastTransition + cfg.inboxWaitExpireMs
    && (snap.inboxWaitingSince.At? ==> now > snap.inboxWaitingSince.ms + cfg.inboxWaitExpireMs)
    && (LastCommit(it, snap).At? ==> now > LastCommit(it, snap).ms + cfg.inboxWaitExpireMs)
  }

  /** A headless worker that stopped after it had begun to work. */
  predicate Recoverable(it: Item, snap: Snapshot) {
    && it.session.workspace.Workspace? && it.session.workspace.headless && snap.workerAlive != Yes
    && (snap.headlessPhase == Waiting || snap.headlessPhase == Coding)
  }

  /** The worker is at work without a usable pull request. */
  function FromWork(cfg: Config, it: Item, snap: Snapshot, now: int): State {
    var crashed := snap.prNumber.Absent? && DeadBy(it, snap, 1);
    var late := !Heard(snap, now) && Overdue(cfg, it, snap, now);
    if crashed || (late && !InGrace(cfg, it, now)) then
      (if Recoverable(it, snap) then Ready else RetriedOrStuck(cfg, it))
    else if !Heard(snap, now) && !late && HandoffPending(it) && snap.inboxWaitingSince.At? && Stalled(cfg, it, snap, now) then Ready
    else Implementing
  }

  /** The worker disagreed with the review: its verdict and its feedback are off the table. */
  function Contested(it: Item): Item {
    it.(review := it.review.(completed := false, lastReviewed := Absent),
        feedback := it.feedback.(needsResponse := false, message := NoMessage))
  }

  /** The worker is done with the feedback. */
  function Addressed(it: Item): Item {
    it.(review := it.review.(lastReviewed := Absent), feedback := it.feedback.(needsResponse := false, message := NoMessage))
  }

  function FromImplementing(cfg: Config, it: Item, snap: Snapshot, now: int): State {
    if snap.prNumber.Absent? || !snap.prState.Open? then FromWork(cfg, it, snap, now)
    else if !UnchangedSinceReview(it, snap) then Checked(cfg, it, At(now), snap, now)
    else if snap.pushback.Ref? then Checked(cfg, Contested(it), At(now), snap, now)
    else if snap.feedbackDone then Checked(cfg, Addressed(it), At(now), snap, now)
    else FromWork(cfg, it, snap, now)
  }

  function FromPassed(cfg: Config, it: Item, snap: Snapshot, now: int): State {
    if snap.ciStatus.Fail? then CiFailed
    else if snap.ciStatus.InProgress? || snap.isMergeable.No? then CiPending
    else Evaluated(cfg, it, snap, now)
  }

  /** The worker was told about the failure half an hour ago and has not been heard since. */
  predicate Unacknowledged(it: Item, snap: Snapshot, now: int) {
    && it.ci.notified && it.ci.notifyWallAt.At? && now > it.ci.notifyWallAt.ms + Minutes(30)
    && (if snap.heartbeatAt.At? then snap.heartbeatAt.ms else 0) <= it.ci.notifyWallAt.ms
  }

  function FromFailed(cfg: Config, it: Item, snap: Snapshot, now: int): State {
    if it.ci.failCount > cfg.maxCiRetries then Stuck
    else if snap.ciStatus.Pass? && !snap.isMergeable.No? then Evaluated(cfg, it, snap, now)
    else if snap.ciStatus.Pass? || snap.ciStatus.InProgress? then CiPending
    else if !snap.isMergeable.No? && (DeadBy(it, snap, 1) || Unacknowledged(it, snap, now)) then Ready
    else CiFailed
  }

  function FromRebasing(it: Item, snap: Snapshot, now: int): State {
    if Heard(snap, now) then Rebasing
    else if snap.eventTime.At? && snap.eventTime.ms > it.lastTransition && !snap.ciStatus.NoStatus? && !snap.ciStatus.Unknown? then CiPending
    else if it.rebase.workspace.Workspace? && DeadBy(it, snap, 1) then Stuck
    else Rebasing
  }

  function FromReviewing(cfg: Config, it: Item, snap: Snapshot, now: int): State {
    match snap.reviewVerdict
    case Approve => Evaluated(cfg, it.(review := it.review.(completed := true, lastReviewed := snap.headSha)), snap, now)
    case RequestChanges => if BatchDue(it, now) && (it.session.workspace.NoWorkspace? || DeadBy(it, snap, 1)) then Ready else ReviewPending
    case NoVerdict =>
      if (it.review.completed && cfg.skipReview) || (it.review.workspace.Workspace? && DeadBy(it, snap, 1)) then Evaluated(cfg, it, snap, now)
      else if snap.ciStatus.Fail? then CiFailed
      else if snap.isMergeable.No? then CiPending
      else Reviewing
  }

  /** Nobody answers: a reviewer that never spoke is replaced while rounds are left. */
  function Recovered(cfg: Config, it: Item, snap: Snapshot, now: int): State {
    if snap.hasReviewerComment != No || !Stalled(cfg, it, snap, now) || it.review.round >= cfg.maxReviewRounds then ReviewPending
    else if cfg.skipReview then MergedUnlessHeld(cfg, it, snap)
    else Reviewing
  }

  /** GitHub or the completed review lets the item merge. */
  predicate Cleared(cfg: Config, it: Item, snap: Snapshot) {
    snap.ciStatus.Pass? && (snap.reviewDecision == Approved || (it.review.completed && cfg.mergeStrategy != Manual))
  }

  /** A review-pending item that nothing human or of its worker waits for. */
  function FromSettled(cfg: Config, it: Item, snap: Snapshot, now: int): State {
    if Cleared(cfg, it, snap) then
      if it.session.workspace.Workspace? then ReviewPending
      else if it.review.completed || cfg.skipReview then MergedUnlessHeld(cfg, it, snap)
      else NextRound(cfg, it, snap, ReviewPending)
    else if it.session.parked && snap.reviewDecision == ChangesRequested then Ready
    else if snap.ciStatus.Fail? then (if it.session.parked && !snap.isMergeable.No? then Ready else CiFailed)
    else if it.review.completed then Recovered(cfg, it, snap, now)
    else if UnchangedSinceReview(it, snap) then (if Abandoned(it, snap, now) then Ready else ReviewPending)
    else if snap.ciStatus.InProgress? then CiPending
    else if snap.ciStatus.Pass? then Evaluated(cfg, it, snap, now)
    else Recovered(cfg, it, snap, now)
  }

  function FromAnswered(cfg: Config, it: Item, snap: Snapshot, now: int): State {
    if HandoffPending(it) || BatchDue(it, now) then (if it.session.parked || Abandoned(it, snap, now) then Ready else ReviewPending)
    else if HasBatch(it) then ReviewPending
    else FromSettled(cfg, it, snap, now)
  }

  /** The worker signals that it is done with the feedback, on unchanged code. */
  function FromDone(cfg: Config, it: Item, snap: Snapshot, now: int): State {
    if snap.ciStatus.InProgress? then CiPending
    else if snap.ciStatus.Pass? then Evaluated(cfg, Addressed(it), snap, now)
    else FromAnswered(cfg, Addressed(it), snap, now)
  }

  function FromReviewPending(cfg: Config, it: Item, snap: Snapshot, now: int): State {
    if it.review.completed && cfg.skipReview then Evaluated(cfg, it, snap, now)
    else if !UnchangedSinceReview(it, snap) then FromAnswered(cfg, it, snap, now)
    else if snap.noNewInfo then ReviewPending
    else if snap.pushback.Ref? then Checked(cfg, Contested(it), it.ci.pendingSince, snap, now)
    else if !snap.feedbackDone then FromAnswered(cfg, it, snap, now)
    else FromDone(cfg, it, snap, now)
  }

  function FromMerging(it: Item, snap: Snapshot, now: int): State {
    if HandoffPending(it) then (if Abandoned(it, snap, now) then Ready else ReviewPending)
    else if HasBatch(it) then (if BatchDue(it, now) && it.review.completed then ReviewPending else Merging)
    else if snap.prState.Closed? then Stuck
    else Merging
  }

  function FromMerged(cfg: Config, it: Item, snap: Snapshot): State {
    if !cfg.fixForward || snap.mergeCommitCi.Pass? then Done
    else if snap.mergeCommitCi.Fail? then FixForwardFailed
    else if it.repair.mergeCommit.Ref? || snap.mergeCommit.Ref? then ForwardFixPending
    else Merged
  }

  /** The checks of the default branch; ones that never report are given a minute, or a quarter of it without push workflows. */
  function FromVerification(it: Item, snap: Snapshot, now: int): State {
    var patience := if snap.hasPushWorkflows == No then 15_000 else 60_000;
    if snap.mergeCommitCi.Fail? then FixForwardFailed
    else if snap.mergeCommitCi.Pass? || (snap.mergeCommitCi.InProgress? && now > it.lastTransition + patience) then Done
    else ForwardFixPending
  }

  function FromFixFailed(cfg: Config, it: Item, snap: Snapshot): State {
    if it.repair.failCount >= cfg.maxFixForwardRetries then Stuck
    else if snap.mergeCommitCi.Pass? then Done
    else if it.repair.mergeCommit.Ref? || snap.mergeCommit.Ref? then FixingForward
    else FixForwardFailed
  }

  function FromFixing(cfg: Config, it: Item, snap: Snapshot, now: int): State {
    if snap.prNumber.Ref? && snap.prState.PrMerged? then Merged
    else if snap.prNumber.Ref? && snap.prState.Open? then
      var restarted := it.(review := it.review.(completed := false, round := 0), session := it.session.(notAliveCount := 0));
      Checked(cfg, restarted, it.ci.pendingSince, snap, now)
    else if snap.mergeCommitCi.Pass? then Done
    else if it.repair.workspace.Workspace? && DeadBy(it, snap, 1) then Stuck
    else FixingForward
  }

  /** The pull request was merged by somebody else while the item was being worked on, reviewed or merged. */
  predicate MergedOutside(it: Item, snap: Snapshot) {
    && snap.prState.PrMerged?
    && (|| it.state.Implementing? || it.state.CiPending? || it.state.CiPassed? || it.state.CiFailed? || it.state.ReviewPending?
        || it.state.Reviewing? || it.state.Merging?)
  }

  /** The state a poll leaves an item in that holds the comments of the poll. */
  function Destination(cfg: Config, it: Item, snap: Snapshot, now: int): State {
    if MergedOutside(it, snap) then Merged
    else
      match it.state
      case Launching => FromLaunching(cfg, it, snap, now)
      case Implementing => FromImplementing(cfg, it, snap, now)
      case CiPending => Checked(cfg, it, it.ci.pendingSince, snap, now)
      case CiPassed => FromPassed(cfg, it, snap, now)
      case CiFailed => FromFailed(cfg, it, snap, now)
      case Rebasing => FromRebasing(it, snap, now)
      case Reviewing => FromReviewing(cfg, it, snap, now)
      case ReviewPending => FromReviewPending(cfg, it, snap, now)
      case Merging => FromMerging(it, snap, now)
      case Merged => FromMerged(cfg, it, snap)
      case ForwardFixPending => FromVerification(it, snap, now)
      case FixForwardFailed => FromFixFailed(cfg, it, snap)
      case FixingForward => FromFixing(cfg, it, snap, now)
      case _ => it.state
  }

  // ---- The last step of a poll ------------------------------------------------------------

  /** The step, followed by the delivery of a due batch, ends in `s` unless it throws. */
  predicate Ends(step: Step, s: State, snap: Snapshot, now: int) {
    step.Step? ==> var tail := Tail(step.item, snap, now); tail.Step? ==> tail.item.state == s
  }

  lemma AfterEnds(step: Step, before: seq<Action>, s: State, snap: Snapshot, now: int)
    ensures Ends(step.After(before), s, snap, now) <==> Ends(step, s, snap, now)
  {
    hide Tail;
  }

  lemma TailEnds(it: Item, actions: seq<Action>, snap: Snapshot, now: int)
    ensures var due := BatchDue(it, now);
      Ends(Step(it, actions),
           if due && (it.session.parked || (it.state.ReviewPending? && (it.session.workspace.NoWorkspace? || DeadBy(it, snap, 1)))) then Ready
           else if due && it.review.completed && (it.state.CiPassed? || it.state.Merging?) then ReviewPending
           else it.state, snap, now)
  {
  }

  // ---- Merge evaluation -------------------------------------------------------------------

  lemma SettleEnds(it: Item, snap: Snapshot, now: int)
    ensures var step := TryHandleNoNewInfo(it, snap, now);
      && (step.Declined? <==> !(snap.noNewInfo && UnchangedSinceReview(it, snap)))
      && Ends(step, ReviewPending, snap, now)
  {
    hide Tail;
    var step := TryHandleNoNewInfo(it, snap, now);
    if step.Step? {
      assert Settle(it, snap).feedback.batch.NoBatch?;
      TailEnds(step.item, step.actions, snap, now);
    }
  }

  lemma HandoffEnds(it: Item, snap: Snapshot, now: int)
    requires it.state.CiPassed? || it.state.ReviewPending? || it.state.Merging?
    ensures var step := ContinuePendingFeedbackHandoff(it, snap, now);
      && (step.Declined? <==> !HandoffPending(it))
      && Ends(step, if (it.state.ReviewPending? && it.session.parked) || Abandoned(it, snap, now) then Ready else ReviewPending, snap, now)
  {
    hide Tail;
    var step := ContinuePendingFeedbackHandoff(it, snap, now);
    if step.Step? {
      TailEnds(step.item, step.actions, snap, now);
    }
  }

  /** A batch holds the item back, and goes out when it is due. */
  lemma ResolveEnds(it: Item, snap: Snapshot, now: int)
    requires (it.state.CiPassed? || it.state.ReviewPending? || it.state.Merging?) && ParkedOk(it)
    ensures var step := ResolvePendingFeedbackBatch(it, snap, now);
      && (step.Declined? <==> !HasBatch(it))
      && Ends(step,
              if !BatchDue(it, now) then it.state
              else if it.state.ReviewPending? then (if it.session.parked || Abandoned(it, snap, now) then Ready else ReviewPending)
              else if it.review.completed then ReviewPending
              else it.state, snap, now)
  {
    hide Tail;
    var step := ResolvePendingFeedbackBatch(it, snap, now);
    if step.Step? {
      TailEnds(step.item, step.actions, snap, now);
    }
  }

  lemma RoundEnds(cfg: Config, it: Item, snap: Snapshot, now: int)
    requires (it.state.CiPassed? || it.state.ReviewPending?) && !HasBatch(it)
    ensures Ends(LaunchReviewRound(cfg, it, snap, now), NextRound(cfg, it, snap, it.state), snap, now)
  {
    hide Tail;
    var step := LaunchReviewRound(cfg, it, snap, now);
    if step.Step? {
      TailEnds(step.item, step.actions, snap, now);
    }
  }

  lemma HoldEnds(cfg: Config, it: Item, snap: Snapshot, now: int)
    requires (it.state.CiPassed? || it.state.ReviewPending?) && !HasBatch(it)
    ensures Ends(HoldOrMerge(cfg, it, snap, now), MergedUnlessHeld(cfg, it, snap), snap, now)
  {
    hide Tail;
    var step := HoldOrMerge(cfg, it, snap, now);
    if step.Step? {
      TailEnds(step.item, step.actions, snap, now);
    }
  }

  /** Merge evaluation once nothing of the feedback is on its way. */
  lemma SettledEvaluationEnds(cfg: Config, it: Item, snap: Snapshot, now: int)
    requires it.state.CiPassed? || it.state.ReviewPending?
    requires !(snap.noNewInfo && UnchangedSinceReview(it, snap)) && !HandoffPending(it) && !HasBatch(it)
    ensures Ends(EvaluateMerge(cfg, it, snap, now),
                 if it.review.completed || cfg.skipReview then MergedUnlessHeld(cfg, it, snap) else NextRound(cfg, it, snap, it.state),
                 snap, now)
  {
    hide TryHandleNoNewInfo, ContinuePendingFeedbackHandoff, ResolvePendingFeedbackBatch, LaunchReviewRound, HoldOrMerge, Ends;
    SettleEnds(it, snap, now);
    NoFeedbackDeclines(it, snap, now);
    var gated := it.(review := it.review.(completed := it.review.completed || cfg.skipReview));
    if gated.review.completed {
      HoldEnds(cfg, gated, snap, now);
    } else {
      RoundEnds(cfg, gated, snap, now);
    }
  }

  lemma NoFeedbackDeclines(it: Item, snap: Snapshot, now: int)
    requires !HandoffPending(it) && !HasBatch(it)
    ensures ContinuePendingFeedbackHandoff(it, snap, now).Declined? && ResolvePendingFeedbackBatch(it, snap, now).Declined?
  {
  }

  lemma EvaluationEnds(cfg: Config, it: Item, snap: Snapshot, now: int)
    requires it.state.CiPassed? && !it.session.parked
    ensures Ends(EvaluateMerge(cfg, it, snap, now), Evaluated(cfg, it, snap, now), snap, now)
  {
    hide TryHandleNoNewInfo, ContinuePendingFeedbackHandoff, ResolvePendingFeedbackBatch, LaunchReviewRound, HoldOrMerge, Ends,
         MergedUnlessHeld, NextRound, Abandoned, HandoffPending, HasBatch;
    SettleEnds(it, snap, now);
    HandoffEnds(it, snap, now);
    ResolveEnds(it, snap, now);
    if !(snap.noNewInfo && UnchangedSinceReview(it, snap)) && !HandoffPending(it) && !HasBatch(it) {
      SettledEvaluationEnds(cfg, it, snap, now);
    } else {
      ThrowEnds(TryHandleNoNewInfo(it, snap, now), snap, now);
    }
  }

  lemma ThrowEnds(step: Step, snap: Snapshot, now: int)
    ensures step.Throw? ==> forall s :: Ends(step, s, snap, now)
  {
  }

  /** What merge evaluation reads of the item. */
  predicate SameCase(it: Item, mid: Item) {
    && mid.review.completed == it.review.completed && mid.review.round == it.review.round && mid.review.lastReviewed == it.review.lastReviewed
    && mid.feedback == it.feedback && mid.workItem == it.workItem
    && mid.session.workspace == it.session.workspace && mid.session.notAliveCount == it.session.notAliveCount
  }

  lemma SameEvaluation(cfg: Config, it: Item, mid: Item, snap: Snapshot, now: int)
    requires SameCase(it, mid)
    ensures Evaluated(cfg, mid, snap, now) == Evaluated(cfg, it, snap, now)
  {
  }

  lemma PassEnds(cfg: Config, it: Item, snap: Snapshot, before: seq<Action>, now: int)
    requires !it.state.CiPassed?
    ensures Ends(PassAndEvaluate(cfg, it, snap, before, now), Evaluated(cfg, it, snap, now), snap, now)
  {
    hide EvaluateMerge, Evaluated, Ends;
    var passed := Transition(it, CiPassed, now);
    if passed.Moved? {
      EvaluationEnds(cfg, passed.item, snap, now);
      SameEvaluation(cfg, it, passed.item, snap, now);
      AfterEnds(EvaluateMerge(cfg, passed.item, snap, now), before, Evaluated(cfg, it, snap, now), snap, now);
    } else {
      ThrowEnds(PassAndEvaluate(cfg, it, snap, before, now), snap, now);
    }
  }

  // ---- CI ---------------------------------------------------------------------------------

  /** Outside review-pending and the merge path the last step moves no item. */
  lemma RestEnds(step: Step, snap: Snapshot, now: int)
    requires step.Step? ==>
      !step.item.session.parked && !step.item.state.ReviewPending? && !step.item.state.CiPassed? && !step.item.state.Merging?
    ensures forall s :: (step.Step? ==> s == step.item.state) ==> Ends(step, s, snap, now)
  {
    hide Tail;
    if step.Step? {
      TailEnds(step.item, step.actions, snap, now);
    }
  }

  lemma PlanEnds(cfg: Config, it: Item, snap: Snapshot, now: int)
    requires it.state.CiPending? || it.state.CiFailed?
    requires !it.session.parked
    ensures Ends(PlanRebaseConflictAction(cfg, it, now), it.state, snap, now)
  {
    hide Ends;
    RestEnds(PlanRebaseConflictAction(cfg, it, now), snap, now);
  }

  lemma FailEnds(cfg: Config, it: Item, snap: Snapshot, now: int)
    requires !it.state.CiFailed?
    ensures Ends(FailCi(cfg, it, snap, now), CiFailed, snap, now)
  {
    hide Ends;
    RestEnds(FailCi(cfg, it, snap, now), snap, now);
  }

  lemma RestartEnds(it: Item, snap: Snapshot, before: seq<Action>, now: int)
    requires !it.state.CiPending?
    ensures Ends(RestartCi(it, snap, before, now), CiPending, snap, now)
  {
    hide Ends;
    RestEnds(RestartCi(it, snap, before, now), snap, now);
  }

  lemma CheckEnds(cfg: Config, it: Item, snap: Snapshot, now: int)
    requires it.state.CiPending? && !it.session.parked
    ensures Ends(HandleCiPending(cfg, it, snap, now), Checked(cfg, it, it.ci.pendingSince, snap, now), snap, now)
  {
    hide FailCi, PlanRebaseConflictAction, PassAndEvaluate, ResolvePendingFeedbackBatch, Ends, Evaluated;
    FailEnds(cfg, it, snap, now);
    PlanEnds(cfg, it, snap, now);
    PassEnds(cfg, it, snap, [], now);
    WaitEnds(it, snap, now);
    RestEnds(Step(it, []), snap, now);
  }

  /** A due batch is delivered at once, and the last step finds none. */
  lemma WaitEnds(it: Item, snap: Snapshot, now: int)
    requires (it.state.CiPending? || it.state.CiFailed?) && !it.session.parked
    ensures Ends(ResolvePendingFeedbackBatch(it, snap, now).OrStay(it), it.state, snap, now)
  {
    hide Ends;
    RestEnds(ResolvePendingFeedbackBatch(it, snap, now).OrStay(it), snap, now);
  }

  /** The item enters ci-pending and its checks are looked at in the same poll. */
  lemma EnterCheckEnds(cfg: Config, it: Item, mid: Item, since: Time, snap: Snapshot, before: seq<Action>, now: int)
    requires SameCase(it, mid) && mid.state.CiPending? && !mid.session.parked && mid.ci.pendingSince == since
    ensures Ends(HandleCiPending(cfg, mid, snap, now).After(before), Checked(cfg, it, since, snap, now), snap, now)
  {
    hide HandleCiPending, Ends, SameCase, Evaluated;
    CheckEnds(cfg, mid, snap, now);
    SameEvaluation(cfg, it, mid, snap, now);
    AfterEnds(HandleCiPending(cfg, mid, snap, now), before, Checked(cfg, it, since, snap, now), snap, now);
  }

  lemma PassedEnds(cfg: Config, it: Item, snap: Snapshot, now: int)
    requires it.state.CiPassed? && !it.session.parked
    ensures Ends(HandleCiPassed(cfg, it, snap, now), FromPassed(cfg, it, snap, now), snap, now)
  {
    hide FailCi, PlanRebaseConflictAction, EvaluateMerge, RestartCi, Ends, Evaluated;
    FailEnds(cfg, it, snap, now);
    RestartEnds(it, snap, [], now);
    PlanEnds(cfg, Enter(it, CiPending, now), snap, now);
    EvaluationEnds(cfg, it, snap, now);
  }

  lemma StillFailingEnds(it: Item, snap: Snapshot, now: int)
    requires it.state.CiFailed? && !it.session.parked
    ensures Ends(HandleCiStillFailing(it, snap, now),
                 if DeadBy(it, snap, 1) || Unacknowledged(it, snap, now) then Ready else CiFailed, snap, now)
  {
    hide ResolvePendingFeedbackBatch, RespawnCiFixWorker, Ends;
    var notified := NotifyStillFailing(it, now);
    var seen := CountLiveness(notified.item, snap);
    RespawnEnds(seen, snap, now);
    WaitEnds(seen, snap, now);
    AfterEnds(ResolvePendingFeedbackBatch(seen, snap, now).OrStay(seen), notified.actions, CiFailed, snap, now);
  }

  lemma RespawnEnds(it: Item, snap: Snapshot, now: int)
    ensures it.state.CiFailed? ==> Ends(RespawnCiFixWorker(it, now), Ready, snap, now)
    ensures !it.state.Ready? ==> forall message :: Ends(RespawnForFeedback(it, message, now), Ready, snap, now)
  {
    hide Ends;
    if it.state.CiFailed? {
      RestEnds(RespawnCiFixWorker(it, now), snap, now);
    }
    forall message | !it.state.Ready? ensures Ends(RespawnForFeedback(it, message, now), Ready, snap, now) {
      RestEnds(RespawnForFeedback(it, message, now), snap, now);
    }
  }

  lemma FailedEnds(cfg: Config, it: Item, snap: Snapshot, now: int)
    requires it.state.CiFailed? && !it.session.parked
    ensures Ends(HandleCiFailed(cfg, it, snap, now), FromFailed(cfg, it, snap, now), snap, now)
  {
    if it.ci.failCount > cfg.maxCiRetries {
      BrokenEnds(cfg, it, snap, now);
    } else {
      RecoveringEnds(cfg, it, snap, now);
    }
  }

  lemma BrokenEnds(cfg: Config, it: Item, snap: Snapshot, now: int)
    requires it.state.CiFailed? && it.ci.failCount > cfg.maxCiRetries
    ensures Ends(HandleCiFailed(cfg, it, snap, now), Stuck, snap, now)
  {
    hide Tail;
    StuckStays(HandleCiFailed(cfg, it, snap, now).item, snap, now);
  }

  lemma RecoveringEnds(cfg: Config, it: Item, snap: Snapshot, now: int)
    requires it.state.CiFailed? && !it.session.parked && it.ci.failCount <= cfg.maxCiRetries
    ensures Ends(HandleCiFailed(cfg, it, snap, now), FromFailed(cfg, it, snap, now), snap, now)
  {
    hide HandleCiPassed, RestartCi, PlanRebaseConflictAction, HandleCiStillFailing, Ends, Evaluated;
    var passed := Enter(it, CiPassed, now);
    PassedEnds(cfg, passed, snap, now);
    SameEvaluation(cfg, it, passed, snap, now);
    RestartEnds(it, snap, [], now);
    PlanEnds(cfg, it, snap, now);
    StillFailingEnds(it, snap, now);
  }

  // ---- A worker at work -------------------------------------------------------------------

  lemma ResumeEnds(cfg: Config, it: Item, mid: Item, since: Time, snap: Snapshot, signal: seq<Action>, now: int)
    requires SameCase(it, mid) && since == if mid.state.Implementing? then At(now) else mid.ci.pendingSince
    requires mid.state.Implementing? || mid.state.ReviewPending?
    ensures Ends(ResumeCi(cfg, mid, snap, signal, now), Checked(cfg, it, since, snap, now), snap, now)
  {
    hide HandleCiPending, Ends, Checked;
    var pending := Enter(mid, CiPending, now);
    var sync := if mid.pr.baseBranch.Ref? then [SyncStackComments(mid.id)] else [];
    EnterCheckEnds(cfg, it, pending, since, snap, signal + sync, now);
  }

  lemma GiveUpEnds(cfg: Config, it: Item, snap: Snapshot, now: int)
    requires it.state.Launching? || it.state.Implementing?
    ensures Ends(StuckOrRetry(cfg, it, now), RetriedOrStuck(cfg, it), snap, now)
    ensures Ends(RecoverHeadlessWorker(it, now), Ready, snap, now)
  {
    hide Ends;
    RestEnds(StuckOrRetry(cfg, it, now), snap, now);
    RestEnds(RecoverHeadlessWorker(it, now), snap, now);
  }

  lemma LaunchingEnds(cfg: Config, it: Item, snap: Snapshot, now: int)
    requires it.state.Launching? && !it.session.parked
    ensures Ends(HandleLaunching(cfg, it, snap, now), FromLaunching(cfg, it, snap, now), snap, now)
  {
    hide StuckOrRetry, Ends;
    var seen := CountLiveness(it, snap);
    GiveUpEnds(cfg, seen, snap, now);
    RestEnds(Step(seen, []), snap, now);
    RestEnds(Step(Enter(seen, Implementing, now), []), snap, now);
    RestEnds(Step(OpenGraceWindow(cfg, seen, now), []), snap, now);
  }

  lemma TimeoutEnds(cfg: Config, it: Item, snap: Snapshot, now: int)
    requires it.state.Implementing? && !it.session.parked
    ensures Ends(OnTimeout(cfg, it, snap, now),
                 if InGrace(cfg, it, now) then Implementing else if Recoverable(it, snap) then Ready else RetriedOrStuck(cfg, it), snap, now)
  {
    hide StuckOrRetry, RecoverHeadlessWorker, Ends;
    GiveUpEnds(cfg, it, snap, now);
    RestEnds(Step(OpenGraceWindow(cfg, it, now), []), snap, now);
  }

  lemma StalledExactly(cfg: Config, it: Item, snap: Snapshot, now: int)
    ensures InboxWaitStalled(cfg, it, snap, now) <==> Stalled(cfg, it, snap, now)
  {
  }

  lemma WorkMarked(cfg: Config, it: Item, snap: Snapshot, now: int)
    ensures var seen := MarkWorking(it, snap, now);
      && seen == it.(session := seen.session) && seen.session.workspace == it.session.workspace && seen.session.parked == it.session.parked
      && seen.session.timeoutDeadline == it.session.timeoutDeadline
      && (WorkTimedOut(cfg, it, seen, snap, now) <==> Overdue(cfg, it, snap, now))
  {
  }

  lemma WorkEnds(cfg: Config, it: Item, snap: Snapshot, now: int)
    requires it.state.Implementing? && !it.session.parked
    ensures Ends(HandleWorking(cfg, it, snap, now), FromWork(cfg, it, snap, now), snap, now)
  {
    hide MarkWorking, StuckOrRetry, OnTimeout, RespawnForFeedback, WorkTimedOut, InboxWaitStalled, RecoverHeadlessWorker, Overdue, Stalled, Ends;
    var seen := MarkWorking(it, snap, now);
    WorkMarked(cfg, it, snap, now);
    GiveUpEnds(cfg, seen, snap, now);
    TimeoutEnds(cfg, seen, snap, now);
    StalledExactly(cfg, seen, snap, now);
    StalledExactly(cfg, it, snap, now);
    SameWait(cfg, it, seen, snap, now);
    RespawnEnds(seen, snap, now);
    RestEnds(Step(seen, []), snap, now);
  }

  lemma SameWait(cfg: Config, it: Item, seen: Item, snap: Snapshot, now: int)
    requires seen.lastTransition == it.lastTransition && seen.pr.lastCommitTime == it.pr.lastCommitTime
    ensures Stalled(cfg, seen, snap, now) <==> Stalled(cfg, it, snap, now)
  {
  }

  lemma OpenPrEnds(cfg: Config, it: Item, snap: Snapshot, now: int)
    requires it.state.Implementing? && snap.prNumber.Ref? && snap.prState.Open? && !WakesSpuriously(it, snap)
    ensures var step := HandleOpenPr(cfg, it, snap, now);
      && (step.Declined? <==> UnchangedSinceReview(it, snap) && !snap.pushback.Ref? && !snap.feedbackDone)
      && (!step.Declined? ==> Ends(step, FromImplementing(cfg, it, snap, now), snap, now))
  {
    hide ResumeCi, Checked, FromWork, Ends;
    ResumeEnds(cfg, it, TrackPr(it, snap), At(now), snap, [], now);
    ResumeEnds(cfg, Contested(it), RecordPushback(it, snap), At(now), snap, [ClearPushback(it.id)], now);
    ResumeEnds(cfg, Addressed(it), TrackPr(FinishFeedback(it), snap), At(now), snap, [ClearFeedbackDone(it.id)], now);
    ResumeAnswers(cfg, RecordPushback(it, snap), snap, [ClearPushback(it.id)], now);
    ResumeAnswers(cfg, TrackPr(it, snap), snap, [], now);
    ResumeAnswers(cfg, TrackPr(FinishFeedback(it), snap), snap, [ClearFeedbackDone(it.id)], now);
  }

  lemma ResumeAnswers(cfg: Config, it: Item, snap: Snapshot, signal: seq<Action>, now: int)
    requires it.state.Implementing? || it.state.ReviewPending?
    ensures !ResumeCi(cfg, it, snap, signal, now).Declined?
  {
    hide HandleCiPending, Count;
    HandleCiPendingFacts(cfg, Enter(it, CiPending, now), snap, now);
  }

  lemma ImplementingEnds(cfg: Config, it: Item, snap: Snapshot, now: int)
    requires it.state.Implementing? && !it.session.parked && !WakesSpuriously(it, snap)
    ensures Ends(HandleImplementing(cfg, it, snap, now), FromImplementing(cfg, it, snap, now), snap, now)
  {
    hide HandleOpenPr, HandleWorking, Checked, FromWork, Ends;
    var tracked := TrackPr(it, snap);
    WorkEnds(cfg, it, snap, now);
    WorkEnds(cfg, tracked, snap, now);
    SameWork(cfg, it, tracked, snap, now);
    if snap.prNumber.Ref? && snap.prState.Open? {
      OpenPrEnds(cfg, it, snap, now);
      ThrowEnds(HandleOpenPr(cfg, it, snap, now), snap, now);
    }
  }

  lemma SameWork(cfg: Config, it: Item, tracked: Item, snap: Snapshot, now: int)
    requires tracked == it.(pr := it.pr.(number := tracked.pr.number))
    ensures FromWork(cfg, tracked, snap, now) == FromWork(cfg, it, snap, now)
  {
  }

  // ---- Rebases and reviews ----------------------------------------------------------------

  lemma RebasingEnds(it: Item, snap: Snapshot, now: int)
    requires it.state.Rebasing? && !it.session.parked
    ensures Ends(HandleRebasing(it, snap, now), FromRebasing(it, snap, now), snap, now)
  {
    hide RestartCi, Ends;
    RestartEnds(it, snap, [CleanRebaser(it.id)], now);
    var seen := CountLiveness(it, snap);
    RestEnds(Step(it, []), snap, now);
    RestEnds(Step(seen, []), snap, now);
    RestEnds(Step(Enter(seen, Stuck, now), [CleanRebaser(it.id)]), snap, now);
  }

  lemma VerdictEnds(cfg: Config, it: Item, snap: Snapshot, now: int)
    requires it.state.Reviewing? && !snap.reviewVerdict.NoVerdict?
    ensures Ends(HandleReviewing(cfg, it, snap, now), FromReviewing(cfg, it, snap, now), snap, now)
  {
    hide PassAndEvaluate, Tail, Evaluated;
    var approved := it.(review := it.review.(completed := true, lastReviewed := snap.headSha, lastApproved := snap.headSha));
    var step := HandleReviewing(cfg, it, snap, now);
    if snap.reviewVerdict.Approve? {
      PassEnds(cfg, approved, snap, [CleanReview(it.id), PostReview(it.id, it.pr.number, Approve), SetCommitStatus(it.id, it.pr.number, Pass)], now);
      SameEvaluation(cfg, it.(review := it.review.(completed := true, lastReviewed := snap.headSha)), approved, snap, now);
    } else {
      TailEnds(step.item, step.actions, snap, now);
    }
  }

  lemma RunningEnds(cfg: Config, it: Item, snap: Snapshot, now: int)
    requires it.state.Reviewing? && !it.session.parked && snap.reviewVerdict.NoVerdict?
    ensures Ends(HandleReviewRunning(cfg, it, snap, now), FromReviewing(cfg, it, snap, now), snap, now)
  {
    hide PassAndEvaluate, PlanRebaseConflictAction, CountCiFailure, Ends, Evaluated;
    var seen := if it.review.workspace.Workspace? then CountLiveness(it, snap) else it;
    var clean := [CleanReview(it.id)];
    var passes, fails := clean + [SetCommitStatus(it.id, it.pr.number, Pass)], clean + [SetCommitStatus(it.id, it.pr.number, Fail)];
    PassEnds(cfg, it, snap, passes, now);
    PassEnds(cfg, seen, snap, fails, now);
    if DeadBy(it, snap, 1) {
      DeadReviewer(cfg, it, snap, now);
    }
    RestEnds(Step(seen, []), snap, now);
    AbortEnds(cfg, seen, snap, clean, clean + [NotifyCiFailure(it.id, it.pr.number)], now);
  }

  /** One more reading does not bring a dead worker back. */
  lemma DeadReviewer(cfg: Config, it: Item, snap: Snapshot, now: int)
    requires DeadBy(it, snap, 1)
    ensures Evaluated(cfg, CountLiveness(it, snap), snap, now) == Evaluated(cfg, it, snap, now)
  {
  }

  lemma AbortEnds(cfg: Config, it: Item, snap: Snapshot, clean: seq<Action>, notice: seq<Action>, now: int)
    requires it.state.Reviewing? && !it.session.parked
    ensures var failed, pending := CountCiFailure(Enter(it, CiFailed, now)), Enter(it, CiPending, now);
      && Ends(PlanRebaseConflictAction(cfg, failed, now).After(clean), CiFailed, snap, now)
      && Ends(Step(failed, notice), CiFailed, snap, now)
      && Ends(PlanRebaseConflictAction(cfg, pending, now).After(clean), CiPending, snap, now)
  {
    hide PlanRebaseConflictAction, Ends;
    var failed, pending := CountCiFailure(Enter(it, CiFailed, now)), Enter(it, CiPending, now);
    PlanEnds(cfg, failed, snap, now);
    AfterEnds(PlanRebaseConflictAction(cfg, failed, now), clean, CiFailed, snap, now);
    RestEnds(Step(failed, notice), snap, now);
    PlanEnds(cfg, pending, snap, now);
    AfterEnds(PlanRebaseConflictAction(cfg, pending, now), clean, CiPending, snap, now);
  }

  lemma ReviewingEnds(cfg: Config, it: Item, snap: Snapshot, now: int)
    requires it.state.Reviewing? && !it.session.parked
    ensures Ends(HandleReviewing(cfg, it, snap, now), FromReviewing(cfg, it, snap, now), snap, now)
  {
    hide HandleReviewRunning, FromReviewing, Ends, PassAndEvaluate;
    if snap.reviewVerdict.NoVerdict? {
      RunningEnds(cfg, it, snap, now);
    } else {
      VerdictEnds(cfg, it, snap, now);
    }
  }

  lemma FailReviewEnds(cfg: Config, it: Item, snap: Snapshot, before: seq<Action>, now: int)
    requires it.state.ReviewPending? && !HasBatch(it)
    ensures Ends(FailCiFromReview(cfg, it, snap, before, now), if it.session.parked && !snap.isMergeable.No? then Ready else CiFailed, snap, now)
  {
    hide PlanRebaseConflictAction, RespawnCiFixWorker, Ends;
    var failed := CountCiFailure(Enter(it, CiFailed, now));
    PlanEnds(cfg, failed, snap, now);
    AfterEnds(PlanRebaseConflictAction(cfg, failed, now), before, CiFailed, snap, now);
    RespawnEnds(failed, snap, now);
    RestEnds(EmitCiFailureNotification(failed, now), snap, now);
    AfterEnds(EmitCiFailureNotification(failed, now), before, CiFailed, snap, now);
  }

  lemma RecoverEnds(cfg: Config, it: Item, snap: Snapshot, before: seq<Action>, now: int)
    requires it.state.ReviewPending? && FeedbackSettled(it)
    ensures Ends(NudgeOrRecoverReview(cfg, it, snap, before, now), Recovered(cfg, it, snap, now), snap, now)
  {
    hide PlanRebaseConflictAction, PassAndEvaluate, InboxWaitStalled, Stalled, Ends, Tail;
    var nudged := if snap.isMergeable.No? then PlanRebaseConflictAction(cfg, it, now) else Step(it, []);
    PlanKeeps(cfg, it, now);
    PassEnds(cfg, ForgetReview(nudged.item), snap, before + nudged.actions, now);
    StalledExactly(cfg, it, snap, now);
    TailEnds(nudged.item, nudged.actions, snap, now);
    AfterEnds(nudged, before, ReviewPending, snap, now);
  }

  lemma PlanKeeps(cfg: Config, it: Item, now: int)
    ensures var plan := PlanRebaseConflictAction(cfg, it, now); plan.Step? && plan.item == it.(rebase := plan.item.rebase)
  {
  }

  lemma AwaitEnds(it: Item, snap: Snapshot, before: seq<Action>, now: int)
    requires it.state.ReviewPending? && !HasBatch(it)
    ensures Ends(AwaitFix(it, snap, before, now), if Abandoned(it, snap, now) then Ready else ReviewPending, snap, now)
  {
    hide RespawnForFeedback, Ends, Tail;
    var seen := if it.session.workspace.NoWorkspace? then it else CountLiveness(it, snap);
    RespawnEnds(seen, snap, now);
    TailEnds(seen, before, snap, now);
  }

  lemma SettledEnds(cfg: Config, it: Item, snap: Snapshot, before: seq<Action>, now: int)
    requires it.state.ReviewPending? && FeedbackSettled(it) && !(snap.noNewInfo && UnchangedSinceReview(it, snap))
    ensures Ends(HandleSettledReview(cfg, it, snap, before, now), FromSettled(cfg, it, snap, now), snap, now)
  {
    hide EvaluateMerge, RespawnForFeedback, FailCiFromReview, AwaitFix, RestartCi, PassAndEvaluate, NudgeOrRecoverReview, Ends, Tail,
         MergedUnlessHeld, NextRound, Evaluated, Recovered, Abandoned;
    SettledEvaluationEnds(cfg, it, snap, now);
    AfterEnds(EvaluateMerge(cfg, it, snap, now), before,
              if it.review.completed || cfg.skipReview then MergedUnlessHeld(cfg, it, snap) else NextRound(cfg, it, snap, it.state), snap, now);
    TailEnds(it, before, snap, now);
    RespawnEnds(it, snap, now);
    FailReviewEnds(cfg, it, snap, before, now);
    AwaitEnds(it, snap, before, now);
    RestartEnds(it, snap, before, now);
    PassEnds(cfg, it, snap, before, now);
    RecoverEnds(cfg, it, snap, before, now);
  }

  lemma AnsweredEnds(cfg: Config, it: Item, snap: Snapshot, before: seq<Action>, now: int)
    requires it.state.ReviewPending? && !(snap.noNewInfo && UnchangedSinceReview(it, snap))
    ensures Ends(HandleAnsweredReview(cfg, it, snap, before, now), FromAnswered(cfg, it, snap, now), snap, now)
  {
    hide ContinuePendingFeedbackHandoff, ResolvePendingFeedbackBatch, HandleSettledReview, FromSettled, HandoffPending, HasBatch, Ends;
    HandoffEnds(it, snap, now);
    ResolveEnds(it, snap, now);
    ThrowEnds(HandleAnsweredReview(cfg, it, snap, before, now), snap, now);
    if !HandoffPending(it) && !HasBatch(it) {
      SettledEnds(cfg, it, snap, before, now);
    }
  }

  lemma ReviewPendingEnds(cfg: Config, it: Item, snap: Snapshot, now: int)
    requires it.state.ReviewPending?
    ensures Ends(HandleReviewPending(cfg, it, snap, now), FromReviewPending(cfg, it, snap, now), snap, now)
  {
    hide PassAndEvaluate, TryHandleNoNewInfo, TryHandlePushback, HandleFeedbackDone, HandleAnsweredReview, Evaluated, Checked, FromAnswered,
         FromReviewPending, Ends;
    PassEnds(cfg, it, snap, [SetCommitStatus(it.id, it.pr.number, Pass)], now);
    SettleEnds(it, snap, now);
    ThrowEnds(HandleReviewPending(cfg, it, snap, now), snap, now);
    PushbackEnds(cfg, it, snap, now);
    DoneEnds(cfg, it, snap, now);
    if !(snap.noNewInfo && UnchangedSinceReview(it, snap)) {
      AnsweredEnds(cfg, it, snap, [], now);
    }
    BranchesOfReviewPending(cfg, it, snap, now);
  }

  /** The cases of `FromReviewPending`, one at a time. */
  lemma BranchesOfReviewPending(cfg: Config, it: Item, snap: Snapshot, now: int)
    ensures var to := FromReviewPending(cfg, it, snap, now);
      if it.review.completed && cfg.skipReview then to == Evaluated(cfg, it, snap, now)
      else if snap.noNewInfo && UnchangedSinceReview(it, snap) then to == ReviewPending
      else if snap.pushback.Ref? && UnchangedSinceReview(it, snap) then to == Checked(cfg, Contested(it), it.ci.pendingSince, snap, now)
      else if !(snap.feedbackDone && UnchangedSinceReview(it, snap)) then to == FromAnswered(cfg, it, snap, now)
      else to == FromDone(cfg, it, snap, now)
  {
    hide Evaluated, Checked, FromAnswered;
  }

  lemma PushbackEnds(cfg: Config, it: Item, snap: Snapshot, now: int)
    requires it.state.ReviewPending?
    ensures var step := TryHandlePushback(cfg, it, snap, now);
      && (step.Declined? <==> !(snap.pushback.Ref? && UnchangedSinceReview(it, snap)))
      && (!step.Declined? ==> Ends(step, Checked(cfg, Contested(it), it.ci.pendingSince, snap, now), snap, now))
  {
    hide ResumeCi, Checked, Ends;
    ResumeEnds(cfg, Contested(it), RecordPushback(it, snap), it.ci.pendingSince, snap, [ClearPushback(it.id)], now);
    ResumeAnswers(cfg, RecordPushback(it, snap), snap, [ClearPushback(it.id)], now);
  }

  lemma DoneEnds(cfg: Config, it: Item, snap: Snapshot, now: int)
    requires it.state.ReviewPending?
    ensures Ends(HandleFeedbackDone(cfg, it, snap, now), FromDone(cfg, it, snap, now), snap, now)
  {
    hide HandleAnsweredReview, RestartCi, PassAndEvaluate, Evaluated, FromAnswered, Ends;
    var done, signal := FinishFeedback(it), [ClearFeedbackDone(it.id)];
    assert done == Addressed(it);
    RestartEnds(done, snap, signal, now);
    PassEnds(cfg, done, snap, signal, now);
    AnsweredEnds(cfg, done, snap, signal, now);
  }

  lemma MergingEnds(cfg: Config, it: Item, snap: Snapshot, now: int)
    requires it.state.Merging? && !it.session.parked
    ensures Ends(HandleMerging(cfg, it, snap, now), FromMerging(it, snap, now), snap, now)
  {
    hide ContinuePendingFeedbackHandoff, ResolvePendingFeedbackBatch, HandoffPending, Abandoned, Ends, Tail;
    HandoffEnds(it, snap, now);
    ResolveEnds(it, snap, now);
    ThrowEnds(HandleMerging(cfg, it, snap, now), snap, now);
    TailEnds(it, [], snap, now);
    TailEnds(it, [Merge(it.id, it.pr.number, cfg.mergeStrategy.Bypass?)], snap, now);
    RestEnds(Step(Enter(it, Stuck, now), []), snap, now);
  }

  // ---- After the merge --------------------------------------------------------------------

  /** The merge commit the poll saw is on record. */
  predicate Recorded(it: Item, snap: Snapshot) {
    snap.mergeCommit.Ref? ==> it.repair.mergeCommit.Ref?
  }

  lemma MergedEnds(cfg: Config, it: Item, snap: Snapshot, now: int)
    requires it.state.Merged? && !it.session.parked && Recorded(it, snap)
    ensures Ends(HandleMerged(cfg, it, snap, now), FromMerged(cfg, it, snap), snap, now)
  {
    hide Ends;
    RestEnds(HandleMerged(cfg, it, snap, now), snap, now);
  }

  lemma VerificationEnds(it: Item, snap: Snapshot, now: int)
    requires it.state.ForwardFixPending? && !it.session.parked
    ensures Ends(HandleForwardFixPending(it, snap, now), FromVerification(it, snap, now), snap, now)
  {
    hide Ends;
    RestEnds(HandleForwardFixPending(it, snap, now), snap, now);
  }

  lemma FixFailedEnds(cfg: Config, it: Item, snap: Snapshot, now: int)
    requires it.state.FixForwardFailed? && !it.session.parked && Recorded(it, snap)
    ensures Ends(HandleFixForwardFailed(cfg, it, snap, now), FromFixFailed(cfg, it, snap), snap, now)
  {
    hide Ends;
    RestEnds(HandleFixForwardFailed(cfg, it, snap, now), snap, now);
  }

  lemma FixingEnds(cfg: Config, it: Item, snap: Snapshot, now: int)
    requires it.state.FixingForward? && !it.session.parked
    ensures Ends(HandleFixingForward(cfg, it, snap, now), FromFixing(cfg, it, snap, now), snap, now)
  {
    hide HandleCiPending, Checked, Ends;
    if snap.prNumber.Ref? && snap.prState.Open? {
      var restarted := it.(review := it.review.(completed := false, round := 0), session := it.session.(notAliveCount := 0));
      var mid := Enter(AdoptRepairPr(it, snap.prNumber.n), CiPending, now);
      EnterCheckEnds(cfg, restarted, mid, it.ci.pendingSince, snap, [], now);
      AfterEnds(HandleCiPending(cfg, mid, snap, now), [], Checked(cfg, restarted, it.ci.pendingSince, snap, now), snap, now);
    } else {
      RestEnds(HandleFixingForward(cfg, it, snap, now), snap, now);
    }
  }

  // ---- A whole poll -----------------------------------------------------------------------

  lemma HandleEnds(cfg: Config, it: Item, snap: Snapshot, now: int)
    requires ParkedOk(it) && !MergedOutside(it, snap) && !WakesSpuriously(it, snap) && Recorded(it, snap)
    ensures Ends(Handle(cfg, it, snap, now), Destination(cfg, it, snap, now), snap, now)
  {
    hide HandleLaunching, HandleImplementing, HandleCiPending, HandleCiPassed, HandleCiFailed, HandleRebasing, HandleReviewing,
         HandleReviewPending, HandleMerging, HandleFixingForward, HandleMerged, HandleForwardFixPending, HandleFixForwardFailed;
    hide FromLaunching, FromImplementing, Checked, FromPassed, FromFailed, FromRebasing, FromReviewing, FromReviewPending, FromMerging,
         FromMerged, FromVerification, FromFixFailed, FromFixing, Ends, Tail;
    match it.state {
      case Launching => LaunchingEnds(cfg, it, snap, now);
      case Implementing => ImplementingEnds(cfg, it, snap, now);
      case CiPending => CheckEnds(cfg, it, snap, now);
      case CiPassed => PassedEnds(cfg, it, snap, now);
      case CiFailed => FailedEnds(cfg, it, snap, now);
      case Rebasing => RebasingEnds(it, snap, now);
      case Reviewing => ReviewingEnds(cfg, it, snap, now);
      case ReviewPending => ReviewPendingEnds(cfg, it, snap, now);
      case Merging => MergingEnds(cfg, it, snap, now);
      case Merged => MergedEnds(cfg, it, snap, now);
      case ForwardFixPending => VerificationEnds(it, snap, now);
      case FixForwardFailed => FixFailedEnds(cfg, it, snap, now);
      case FixingForward => FixingEnds(cfg, it, snap, now);
      case Stuck => StillStuck(it, snap, now);
      case _ => RestEnds(Step(it, []), snap, now);
    }
  }

  lemma StillStuck(it: Item, snap: Snapshot, now: int)
    requires it.state.Stuck?
    ensures Ends(Step(it, []), Stuck, snap, now)
  {
    hide Tail;
    StuckStays(it, snap, now);
  }

  /** Rebase tracking and the merge commit of the poll do not matter. */
  lemma SameDestination(cfg: Config, it: Item, seen: Item, snap: Snapshot, now: int)
    requires SeenAs(it, seen, snap)
    ensures Destination(cfg, seen, snap, now) == Destination(cfg, it, snap, now)
  {
    hide FromLaunching, FromImplementing, Checked, FromPassed, FromFailed, FromRebasing, FromReviewing, FromReviewPending, FromMerging,
         FromMerged, FromVerification, FromFixFailed, FromFixing, Evaluated, SeenAs;
    SameState(it, seen, snap);
    match it.state {
      case Launching => SameProgress(cfg, it, seen, snap, now);
      case Implementing => SameWorker(cfg, it, seen, snap, now);
      case CiPending => SameChecks(cfg, it, seen, it.ci.pendingSince, snap, now);
      case ReviewPending => SameReview(cfg, it, seen, snap, now);
      case FixingForward => SameRepair(cfg, it, seen, snap, now);
      case CiPassed => SameCi(cfg, it, seen, snap, now);
      case CiFailed => SameCi(cfg, it, seen, snap, now);
      case Rebasing => SameCi(cfg, it, seen, snap, now);
      case Reviewing => SameCi(cfg, it, seen, snap, now);
      case _ => SameMerge(cfg, it, seen, snap, now);
    }
  }

  /** The item with the rebase tracking and the merge commit of the poll. */
  predicate SeenAs(it: Item, seen: Item, snap: Snapshot) {
    && seen == it.(rebase := seen.rebase, repair := seen.repair)
    && seen.rebase.workspace == it.rebase.workspace
    && seen.repair == it.repair.(mergeCommit := OrRef(snap.mergeCommit, it.repair.mergeCommit))
  }

  lemma SameFields(it: Item, seen: Item, snap: Snapshot)
    requires SeenAs(it, seen, snap)
    ensures seen == it.(rebase := seen.rebase, repair := seen.repair) && seen.rebase.workspace == it.rebase.workspace
    ensures SeenAs(it.(review := it.review.(completed := true, lastReviewed := snap.headSha)),
                   seen.(review := seen.review.(completed := true, lastReviewed := snap.headSha)), snap)
  {
  }

  lemma SameState(it: Item, seen: Item, snap: Snapshot)
    requires SeenAs(it, seen, snap)
    ensures seen.state == it.state && seen.ci == it.ci
  {
  }

  lemma SameChecks(cfg: Config, it: Item, seen: Item, since: Time, snap: Snapshot, now: int)
    requires SeenAs(it, seen, snap)
    ensures Evaluated(cfg, seen, snap, now) == Evaluated(cfg, it, snap, now)
    ensures Checked(cfg, seen, since, snap, now) == Checked(cfg, it, since, snap, now)
  {
    hide Evaluated;
    SameEvaluation(cfg, it, seen, snap, now);
  }

  lemma SameReview(cfg: Config, it: Item, seen: Item, snap: Snapshot, now: int)
    requires SeenAs(it, seen, snap)
    ensures FromReviewPending(cfg, seen, snap, now) == FromReviewPending(cfg, it, snap, now)
  {
    hide Checked, Evaluated, FromAnswered;
    SameChecks(cfg, it, seen, Undefined, snap, now);
    SameChecks(cfg, Contested(it), Contested(seen), it.ci.pendingSince, snap, now);
    SameChecks(cfg, Addressed(it), Addressed(seen), Undefined, snap, now);
    SameAnswer(cfg, it, seen, snap, now);
    SameAnswer(cfg, Addressed(it), Addressed(seen), snap, now);
  }

  lemma SameAnswer(cfg: Config, it: Item, seen: Item, snap: Snapshot, now: int)
    requires SeenAs(it, seen, snap)
    ensures FromAnswered(cfg, seen, snap, now) == FromAnswered(cfg, it, snap, now)
  {
    hide FromSettled;
    SameSettled(cfg, it, seen, snap, now);
  }

  lemma SameSettled(cfg: Config, it: Item, seen: Item, snap: Snapshot, now: int)
    requires SeenAs(it, seen, snap)
    ensures FromSettled(cfg, seen, snap, now) == FromSettled(cfg, it, snap, now)
  {
    hide Evaluated, Recovered, Cleared, NextRound, MergedUnlessHeld, Abandoned;
    SameChecks(cfg, it, seen, Undefined, snap, now);
    SameWait(cfg, it, seen, snap, now);
    SameOutcomes(cfg, it, seen, snap, now);
  }

  lemma SameOutcomes(cfg: Config, it: Item, seen: Item, snap: Snapshot, now: int)
    requires SeenAs(it, seen, snap)
    ensures Recovered(cfg, seen, snap, now) == Recovered(cfg, it, snap, now)
    ensures Cleared(cfg, seen, snap) == Cleared(cfg, it, snap) && Abandoned(seen, snap, now) == Abandoned(it, snap, now)
    ensures MergedUnlessHeld(cfg, seen, snap) == MergedUnlessHeld(cfg, it, snap)
    ensures NextRound(cfg, seen, snap, ReviewPending) == NextRound(cfg, it, snap, ReviewPending)
  {
    hide Stalled;
    SameWait(cfg, it, seen, snap, now);
  }

  lemma SameWorker(cfg: Config, it: Item, seen: Item, snap: Snapshot, now: int)
    requires SeenAs(it, seen, snap)
    ensures FromImplementing(cfg, seen, snap, now) == FromImplementing(cfg, it, snap, now)
  {
    hide Checked, FromWork;
    SameChecks(cfg, it, seen, At(now), snap, now);
    SameChecks(cfg, Contested(it), Contested(seen), At(now), snap, now);
    SameChecks(cfg, Addressed(it), Addressed(seen), At(now), snap, now);
    SameProgress(cfg, it, seen, snap, now);
  }

  lemma SameProgress(cfg: Config, it: Item, seen: Item, snap: Snapshot, now: int)
    requires SeenAs(it, seen, snap)
    ensures FromWork(cfg, seen, snap, now) == FromWork(cfg, it, snap, now)
    ensures FromLaunching(cfg, seen, snap, now) == FromLaunching(cfg, it, snap, now)
  {
  }

  lemma SameCi(cfg: Config, it: Item, seen: Item, snap: Snapshot, now: int)
    requires SeenAs(it, seen, snap)
    ensures FromPassed(cfg, seen, snap, now) == FromPassed(cfg, it, snap, now)
    ensures FromFailed(cfg, seen, snap, now) == FromFailed(cfg, it, snap, now)
    ensures FromRebasing(seen, snap, now) == FromRebasing(it, snap, now)
    ensures FromReviewing(cfg, seen, snap, now) == FromReviewing(cfg, it, snap, now)
  {
    hide Evaluated, SeenAs;
    SameFields(it, seen, snap);
    SameChecks(cfg, it, seen, Undefined, snap, now);
    SameChecks(cfg, it.(review := it.review.(completed := true, lastReviewed := snap.headSha)),
               seen.(review := seen.review.(completed := true, lastReviewed := snap.headSha)), Undefined, snap, now);
  }

  lemma SameRepair(cfg: Config, it: Item, seen: Item, snap: Snapshot, now: int)
    requires SeenAs(it, seen, snap)
    ensures FromFixing(cfg, seen, snap, now) == FromFixing(cfg, it, snap, now)
  {
    hide Checked;
    SameChecks(cfg, it.(review := it.review.(completed := false, round := 0), session := it.session.(notAliveCount := 0)),
               seen.(review := seen.review.(completed := false, round := 0), session := seen.session.(notAliveCount := 0)), it.ci.pendingSince,
               snap, now);
  }

  lemma SameMerge(cfg: Config, it: Item, seen: Item, snap: Snapshot, now: int)
    requires SeenAs(it, seen, snap)
    ensures FromMerging(seen, snap, now) == FromMerging(it, snap, now)
    ensures FromMerged(cfg, seen, snap) == FromMerged(cfg, it, snap)
    ensures FromVerification(seen, snap, now) == FromVerification(it, snap, now)
    ensures FromFixFailed(cfg, seen, snap) == FromFixFailed(cfg, it, snap)
  {
  }

  lemma SeenIs(it: Item, snap: Snapshot, now: int)
    ensures var held := IngestPendingFeedbackBatch(it, snap);
      SeenAs(held, Seen(it, snap, now), snap) && held == it.(feedback := held.feedback)
  {
  }

  /**
   * Main result: the state a poll leaves an item in, for every state, snapshot, setting and time.
   */
  lemma EndsExactly(cfg: Config, it: Item, snap: Snapshot, now: int)
    requires ParkedOk(it) && TransitionItem(cfg, it, snap, now).Step?
    ensures TransitionItem(cfg, it, snap, now).item.state == Destination(cfg, IngestPendingFeedbackBatch(it, snap), snap, now)
  {
    hide Seen, IngestPendingFeedbackBatch, Handle, Tail, Sound;
    var held, seen := IngestPendingFeedbackBatch(it, snap), Seen(it, snap, now);
    SeenIs(it, snap, now);
    SameDestination(cfg, held, seen, snap, now);
    if ExternallyMerged(it, snap) {
      OutsideEnds(it, snap, now);
    } else {
      ThrowsExactly(cfg, it, snap, now);
      HandleEnds(cfg, seen, snap, now);
    }
  }

  lemma OutsideEnds(it: Item, snap: Snapshot, now: int)
    requires ExternallyMerged(it, snap)
    ensures var step := InterceptExternalMerge(RecordMergeCommit(it, snap), snap, now); step.Step? ==> step.item.state.Merged?
    ensures MergedOutside(it, snap)
  {
  }
}
