/**
 * Where a poll leaves the item it asks an action for: in the one state from which executing the
 * action cannot run off the table, but for the recovery of a stalled reviewer. The same walk over
 * the handlers shows what a poll records about rebase requests and approvals.
 */
module ActionHomes {
  import opened OrchestratorTypes
  import opened OrchestratorGuards
  import opened Lifecycle
  import opened LifecycleFacts
  import opened LifecycleSteps
  import opened Poll
  import opened Execution
  import opened ExecutionFacts
  import opened FeedbackTiming

  /** The actions whose execution moves the item to another state. */
  predicate Moving(a: Action) {
    a.Launch? || a.Merge? || a.NotifyCiFailure? || a.DaemonRebase?
  }

  predicate Still(actions: seq<Action>) {
    forall j :: 0 <= j < |actions| ==> !Moving(actions[j])
  }

  /** Reviewed, and merged by hand only. */
  predicate HeldForHuman(cfg: Config, it: Item) {
    it.review.completed && cfg.mergeStrategy.Manual?
  }

  /** What the item had on record before a handler ran: the approved commit and the last rebase nudge. */
  datatype Past = Past(approved: Ref, nudgedAt: Time)

  function PastOf(it: Item): Past {
    Past(it.review.lastApproved, it.rebase.lastNudgeAt)
  }

  /** The approved commit stays, and the nudge on record is the old one, one of now, or that of a CI restart. */
  predicate RecordKept(it: Item, past: Past, snap: Snapshot, now: int) {
    && it.review.lastApproved == past.approved
    && (|| it.rebase.lastNudgeAt == past.nudgedAt
        || it.rebase.lastNudgeAt == At(now)
        || (OrTime(snap.eventTime, snap.lastCommitTime).At? && it.rebase.lastNudgeAt == OrTime(snap.eventTime, snap.lastCommitTime)))
  }

  /** The item is where `a` is at home; a rebase request is on record, and nothing will move the item on. */
  predicate InPlace(cfg: Config, snap: Snapshot, past: Past, it: Item, a: Action, now: int) {
    && a.id == it.id && !a.Launch? && AtHome(it, a)
    && (it.state.ReviewPending? || it.state.Merging? ==> FeedbackSettled(it))
    && (it.state.ReviewPending? && snap.ciStatus.Pass? ==> HeldForHuman(cfg, it))
    && (a.DaemonRebase? ==> it.rebase.lastNudgeAt == At(now) && IsRebaseStale(past.nudgedAt, now, cfg.rebaseRetryStaleMs))
  }

  /** At most one of the actions moves the item. */
  predicate OneMove(actions: seq<Action>) {
    forall i, j :: 0 <= i < j < |actions| ==> !(Moving(actions[i]) && Moving(actions[j]))
  }

  /** At most one action moves the item and finds it in place, and the approved commit is the one before. */
  predicate Homed(cfg: Config, snap: Snapshot, step: Step, past: Past, now: int) {
    step.Step? ==>
      && RecordKept(step.item, past, snap, now)
      && OneMove(step.actions)
      && forall j :: 0 <= j < |step.actions| && Moving(step.actions[j]) ==> InPlace(cfg, snap, past, step.item, step.actions[j], now)
  }

  lemma HomedAfter(cfg: Config, snap: Snapshot, step: Step, before: seq<Action>, past: Past, now: int)
    requires Homed(cfg, snap, step, past, now) && Still(before)
    ensures Homed(cfg, snap, step.After(before), past, now)
  {
    hide InPlace;
  }

  // ---- Helpers ----------------------------------------------------------------------------

  lemma PlanHomed(cfg: Config, snap: Snapshot, it: Item, now: int)
    requires
      || it.state.CiPending? || it.state.CiFailed?
      || (it.state.ReviewPending? && FeedbackSettled(it) && (snap.ciStatus.Pass? ==> HeldForHuman(cfg, it)))
    ensures Homed(cfg, snap, PlanRebaseConflictAction(cfg, it, now), PastOf(it), now)
  {
  }

  /** A handler that only gets as far as quiet actions. */
  predicate StaysQuiet(step: Step, past: Past, snap: Snapshot, now: int) {
    step.Step? ==> Still(step.actions) && RecordKept(step.item, past, snap, now)
  }

  lemma QuietHomed(cfg: Config, snap: Snapshot, step: Step, past: Past, now: int)
    requires StaysQuiet(step, past, snap, now)
    ensures Homed(cfg, snap, step, past, now)
  {
  }

  lemma RespawnQuiet(it: Item, snap: Snapshot, now: int)
    ensures StaysQuiet(RespawnCiFixWorker(it, now), PastOf(it), snap, now)
  {
  }

  lemma RespawnFeedbackQuiet(it: Item, message: Message, snap: Snapshot, now: int)
    ensures StaysQuiet(RespawnForFeedback(it, message, now), PastOf(it), snap, now)
    ensures !RespawnForFeedback(it, message, now).Declined?
  {
  }

  lemma ResolveQuiet(it: Item, snap: Snapshot, now: int)
    ensures StaysQuiet(ResolvePendingFeedbackBatch(it, snap, now), PastOf(it), snap, now)
    ensures ResolvePendingFeedbackBatch(it, snap, now).Declined? <==> !HasBatch(it)
  {
    hide RespawnForFeedback, DeliverBatch;
    if BatchDue(it, now) {
      var taken := TakeBatch(SampleForDelivery(it, snap), snap);
      RespawnFeedbackQuiet(taken, taken.feedback.message, snap, now);
      DeliverQuiet(taken, snap, now);
    }
  }

  lemma DeliverQuiet(it: Item, snap: Snapshot, now: int)
    ensures StaysQuiet(DeliverBatch(it, snap, now), PastOf(it), snap, now)
    ensures !DeliverBatch(it, snap, now).Declined?
  {
  }

  lemma HandoffQuiet(it: Item, snap: Snapshot, now: int)
    ensures StaysQuiet(ContinuePendingFeedbackHandoff(it, snap, now), PastOf(it), snap, now)
    ensures ContinuePendingFeedbackHandoff(it, snap, now).Declined? <==> !HandoffPending(it)
  {
    hide RespawnForFeedback;
    var held := HoldForHandoff(it, snap, now);
    HoldQuiet(it, snap, now);
    if HandoffPending(it) && held.Moved? {
      RespawnFeedbackQuiet(held.item, it.feedback.message, snap, now);
      RespawnFeedbackQuiet(CountLiveness(held.item, snap), it.feedback.message, snap, now);
    }
  }

  lemma HoldQuiet(it: Item, snap: Snapshot, now: int)
    ensures var held := HoldForHandoff(it, snap, now); held.Moved? ==> PastOf(held.item) == PastOf(it)
  {
  }

  lemma NoNewInfoQuiet(it: Item, snap: Snapshot, now: int)
    ensures StaysQuiet(TryHandleNoNewInfo(it, snap, now), PastOf(it), snap, now)
  {
  }

  lemma LaunchReviewQuiet(cfg: Config, it: Item, snap: Snapshot, now: int)
    ensures StaysQuiet(LaunchReviewRound(cfg, it, snap, now), PastOf(it), snap, now)
  {
  }

  lemma HoldOrMergeHomed(cfg: Config, it: Item, snap: Snapshot, now: int)
    requires FeedbackSettled(it)
    ensures Homed(cfg, snap, HoldOrMerge(cfg, it, snap, now), PastOf(it), now)
  {
  }

  lemma EvaluateMergeHomed(cfg: Config, it: Item, snap: Snapshot, now: int)
    ensures Homed(cfg, snap, EvaluateMerge(cfg, it, snap, now), PastOf(it), now)
  {
    hide TryHandleNoNewInfo, ContinuePendingFeedbackHandoff, ResolvePendingFeedbackBatch, LaunchReviewRound, HoldOrMerge, Homed,
         StaysQuiet;
    var past := PastOf(it);
    NoNewInfoQuiet(it, snap, now);
    HandoffQuiet(it, snap, now);
    ResolveQuiet(it, snap, now);
    QuietHomed(cfg, snap, TryHandleNoNewInfo(it, snap, now), past, now);
    QuietHomed(cfg, snap, ContinuePendingFeedbackHandoff(it, snap, now), past, now);
    QuietHomed(cfg, snap, ResolvePendingFeedbackBatch(it, snap, now), past, now);
    var gated := it.(review := it.review.(completed := it.review.completed || cfg.skipReview));
    LaunchReviewQuiet(cfg, gated, snap, now);
    QuietHomed(cfg, snap, LaunchReviewRound(cfg, gated, snap, now), past, now);
    if !HandoffPending(it) && !HasBatch(it) {
      HoldOrMergeHomed(cfg, gated, snap, now);
    }
  }

  // ---- Handlers ---------------------------------------------------------------------------

  lemma PassAndEvaluateHomed(cfg: Config, it: Item, snap: Snapshot, before: seq<Action>, now: int)
    requires Still(before)
    ensures Homed(cfg, snap, PassAndEvaluate(cfg, it, snap, before, now), PastOf(it), now)
  {
    hide EvaluateMerge, Still, InPlace;
    var passed := Transition(it, CiPassed, now);
    if passed.Moved? {
      EvaluateMergeHomed(cfg, passed.item, snap, now);
      HomedAfter(cfg, snap, EvaluateMerge(cfg, passed.item, snap, now), before, PastOf(it), now);
    }
  }

  lemma RestartCiQuiet(it: Item, snap: Snapshot, before: seq<Action>, now: int)
    requires Still(before)
    ensures StaysQuiet(RestartCi(it, snap, before, now), PastOf(it), snap, now)
  {
  }

  lemma FailCiHomed(cfg: Config, it: Item, snap: Snapshot, now: int)
    ensures Homed(cfg, snap, FailCi(cfg, it, snap, now), PastOf(it), now)
  {
    hide PlanRebaseConflictAction;
    var failed := Transition(it, CiFailed, now);
    if failed.Moved? {
      PlanHomed(cfg, snap, CountCiFailure(failed.item), now);
    }
  }

  lemma HandleCiPendingHomed(cfg: Config, it: Item, snap: Snapshot, now: int)
    requires it.state.CiPending?
    ensures Homed(cfg, snap, HandleCiPending(cfg, it, snap, now), PastOf(it), now)
  {
    hide FailCi, PlanRebaseConflictAction, PassAndEvaluate, ResolvePendingFeedbackBatch, InPlace;
    FailCiHomed(cfg, it, snap, now);
    PlanHomed(cfg, snap, it, now);
    PassAndEvaluateHomed(cfg, it, snap, [], now);
    ResolveQuiet(it, snap, now);
  }

  lemma HandleCiPassedHomed(cfg: Config, it: Item, snap: Snapshot, now: int)
    ensures Homed(cfg, snap, HandleCiPassed(cfg, it, snap, now), PastOf(it), now)
  {
    hide FailCi, PlanRebaseConflictAction, EvaluateMerge, RestartCi, InPlace;
    FailCiHomed(cfg, it, snap, now);
    RestartCiQuiet(it, snap, [], now);
    EvaluateMergeHomed(cfg, it, snap, now);
    var pending := Transition(it, CiPending, now);
    if pending.Moved? {
      PlanHomed(cfg, snap, pending.item, now);
    }
  }

  /** The last step of transitionItem leaves an item whose CI it waits for where it is. */
  lemma TailStays(it: Item, snap: Snapshot, now: int)
    requires (it.state.CiPending? || it.state.CiFailed?) && !it.session.parked
    ensures var step := Tail(it, snap, now);
      && step.Step? && step.item.state == it.state && step.item.id == it.id
      && step.item.review.lastApproved == it.review.lastApproved && step.item.rebase == it.rebase
      && Still(step.actions)
  {
  }

  lemma HandleCiStillFailingHomed(cfg: Config, it: Item, snap: Snapshot, now: int)
    requires it.state.CiFailed? && !it.session.parked
    ensures Homed(cfg, snap, HandleCiStillFailing(it, snap, now), PastOf(it), now)
  {
    hide RespawnCiFixWorker, Tail, ResolvePendingFeedbackBatch;
    var notified := NotifyStillFailing(it, now);
    var seen := CountLiveness(notified.item, snap);
    RespawnQuiet(seen, snap, now);
    TailStays(seen, snap, now);
    TailIsResolve(seen, snap, now);
  }

  lemma HandleCiFailedHomed(cfg: Config, it: Item, snap: Snapshot, now: int)
    requires it.state.CiFailed? && !it.session.parked
    ensures Homed(cfg, snap, HandleCiFailed(cfg, it, snap, now), PastOf(it), now)
  {
    hide HandleCiPassed, RestartCi, PlanRebaseConflictAction, HandleCiStillFailing, InPlace;
    var passed := Transition(it, CiPassed, now);
    if passed.Moved? {
      HandleCiPassedHomed(cfg, passed.item, snap, now);
    }
    RestartCiQuiet(it, snap, [], now);
    PlanHomed(cfg, snap, it, now);
    HandleCiStillFailingHomed(cfg, it, snap, now);
  }

  lemma ResumeCiHomed(cfg: Config, it: Item, snap: Snapshot, signal: seq<Action>, now: int)
    requires Still(signal)
    ensures Homed(cfg, snap, ResumeCi(cfg, it, snap, signal, now), PastOf(it), now)
  {
    hide HandleCiPending, InPlace;
    var pending := Transition(it, CiPending, now);
    if pending.Moved? {
      var sync := if it.pr.baseBranch.Ref? then [SyncStackComments(it.id)] else [];
      HandleCiPendingHomed(cfg, pending.item, snap, now);
      HomedAfter(cfg, snap, HandleCiPending(cfg, pending.item, snap, now), signal + sync, PastOf(it), now);
    }
  }

  lemma PushbackHomed(cfg: Config, it: Item, snap: Snapshot, now: int)
    ensures Homed(cfg, snap, TryHandlePushback(cfg, it, snap, now), PastOf(it), now)
  {
    hide ResumeCi, InPlace;
    ResumeCiHomed(cfg, RecordPushback(it, snap), snap, [ClearPushback(it.id)], now);
  }

  lemma HandleOpenPrHomed(cfg: Config, it: Item, snap: Snapshot, now: int)
    ensures Homed(cfg, snap, HandleOpenPr(cfg, it, snap, now), PastOf(it), now)
  {
    hide ResumeCi, TryHandlePushback, TryHandleNoNewInfo, InPlace;
    ResumeCiHomed(cfg, TrackPr(it, snap), snap, [], now);
    ResumeCiHomed(cfg, TrackPr(FinishFeedback(it), snap), snap, [ClearFeedbackDone(it.id)], now);
    NoNewInfoQuiet(it, snap, now);
    PushbackHomed(cfg, it, snap, now);
  }

  lemma StuckOrRetryQuiet(cfg: Config, it: Item, snap: Snapshot, now: int)
    ensures StaysQuiet(StuckOrRetry(cfg, it, now), PastOf(it), snap, now)
  {
  }

  lemma OnTimeoutQuiet(cfg: Config, it: Item, snap: Snapshot, now: int)
    ensures StaysQuiet(OnTimeout(cfg, it, snap, now), PastOf(it), snap, now)
  {
    hide StuckOrRetry;
    StuckOrRetryQuiet(cfg, it, snap, now);
  }

  lemma HandleWorkingQuiet(cfg: Config, it: Item, snap: Snapshot, now: int)
    ensures StaysQuiet(HandleWorking(cfg, it, snap, now), PastOf(it), snap, now)
  {
    hide StuckOrRetry, OnTimeout, RespawnForFeedback, WorkTimedOut, InboxWaitStalled;
    var seen := MarkWorking(it, snap, now);
    StuckOrRetryQuiet(cfg, seen, snap, now);
    OnTimeoutQuiet(cfg, seen, snap, now);
    RespawnFeedbackQuiet(seen, seen.feedback.message, snap, now);
  }

  lemma HandleImplementingHomed(cfg: Config, it: Item, snap: Snapshot, now: int)
    ensures Homed(cfg, snap, HandleImplementing(cfg, it, snap, now), PastOf(it), now)
  {
    hide HandleOpenPr, HandleWorking, InPlace;
    HandleOpenPrHomed(cfg, it, snap, now);
    HandleWorkingQuiet(cfg, it, snap, now);
    HandleWorkingQuiet(cfg, TrackPr(it, snap), snap, now);
  }

  lemma HandleLaunchingQuiet(cfg: Config, it: Item, snap: Snapshot, now: int)
    ensures StaysQuiet(HandleLaunching(cfg, it, snap, now), PastOf(it), snap, now)
  {
    hide StuckOrRetry;
    StuckOrRetryQuiet(cfg, CountLiveness(it, snap), snap, now);
  }

  lemma HandleRebasingQuiet(it: Item, snap: Snapshot, now: int)
    ensures StaysQuiet(HandleRebasing(it, snap, now), PastOf(it), snap, now)
  {
    hide RestartCi;
    RestartCiQuiet(it, snap, [CleanRebaser(it.id)], now);
  }

  lemma HandleReviewRunningHomed(cfg: Config, it: Item, snap: Snapshot, now: int)
    ensures Homed(cfg, snap, HandleReviewRunning(cfg, it, snap, now), PastOf(it), now)
  {
    hide PassAndEvaluate, PlanRebaseConflictAction, Homed, Transition;
    var seen := if it.review.workspace.Workspace? then CountLiveness(it, snap) else it;
    var clean := [CleanReview(it.id)];
    PassAndEvaluateHomed(cfg, it, snap, clean + [SetCommitStatus(it.id, it.pr.number, Pass)], now);
    PassAndEvaluateHomed(cfg, seen, snap, clean + [SetCommitStatus(it.id, it.pr.number, Fail)], now);
    ReviewEndsHomed(cfg, snap, seen, now);
    NothingHomed(cfg, snap, seen, now);
  }

  /** A failed check or a conflict ends the review. */
  lemma ReviewEndsHomed(cfg: Config, snap: Snapshot, it: Item, now: int)
    ensures var failed, pending, clean := Transition(it, CiFailed, now), Transition(it, CiPending, now), [CleanReview(it.id)];
      && (failed.Moved? ==>
            && Homed(cfg, snap, PlanRebaseConflictAction(cfg, CountCiFailure(failed.item), now).After(clean), PastOf(it), now)
            && Homed(cfg, snap, Step(CountCiFailure(failed.item), clean + [NotifyCiFailure(it.id, it.pr.number)]), PastOf(it), now))
      && (failed.Illegal? ==> Homed(cfg, snap, Throw(failed.from, failed.to), PastOf(it), now))
      && (pending.Moved? ==> Homed(cfg, snap, PlanRebaseConflictAction(cfg, pending.item, now).After(clean), PastOf(it), now))
      && (pending.Illegal? ==> Homed(cfg, snap, Throw(pending.from, pending.to), PastOf(it), now))
  {
    hide PlanRebaseConflictAction;
    AbortHomed(cfg, snap, Transition(it, CiFailed, now), [CleanReview(it.id)], now);
    AbortHomed(cfg, snap, Transition(it, CiPending, now), [CleanReview(it.id)], now);
  }

  lemma AbortHomed(cfg: Config, snap: Snapshot, move: Move, before: seq<Action>, now: int)
    requires Still(before) && (move.Moved? ==> move.item.state.CiPending? || move.item.state.CiFailed?)
    ensures move.Moved? ==>
      && Homed(cfg, snap, PlanRebaseConflictAction(cfg, move.item, now).After(before), PastOf(move.item), now)
      && Homed(cfg, snap, PlanRebaseConflictAction(cfg, CountCiFailure(move.item), now).After(before), PastOf(move.item), now)
  {
    hide PlanRebaseConflictAction, InPlace;
    if move.Moved? {
      PlanHomed(cfg, snap, move.item, now);
      HomedAfter(cfg, snap, PlanRebaseConflictAction(cfg, move.item, now), before, PastOf(move.item), now);
      var counted := CountCiFailure(move.item);
      PlanHomed(cfg, snap, counted, now);
      HomedAfter(cfg, snap, PlanRebaseConflictAction(cfg, counted, now), before, PastOf(move.item), now);
    }
  }

  /** The approved commit after a poll: the head when an approve verdict is read, else the one before. */
  function PastAfter(it: Item, snap: Snapshot): Past {
    PastOf(it).(approved := if ApproveSeen(it, snap) then snap.headSha else it.review.lastApproved)
  }

  lemma HandleReviewingHomed(cfg: Config, it: Item, snap: Snapshot, now: int)
    requires it.state.Reviewing? && !ExternallyMerged(it, snap)
    ensures Homed(cfg, snap, HandleReviewing(cfg, it, snap, now), PastAfter(it, snap), now)
  {
    hide PassAndEvaluate, HandleReviewRunning, InPlace;
    var approved := it.(review := it.review.(completed := true, lastReviewed := snap.headSha, lastApproved := snap.headSha));
    PassAndEvaluateHomed(cfg, approved, snap,
      [CleanReview(it.id), PostReview(it.id, it.pr.number, Approve), SetCommitStatus(it.id, it.pr.number, Pass)], now);
    HandleReviewRunningHomed(cfg, it, snap, now);
  }

  lemma FailCiFromReviewHomed(cfg: Config, it: Item, snap: Snapshot, before: seq<Action>, now: int)
    requires Still(before)
    ensures Homed(cfg, snap, FailCiFromReview(cfg, it, snap, before, now), PastOf(it), now)
  {
    hide PlanRebaseConflictAction, RespawnCiFixWorker;
    var failed := Transition(it, CiFailed, now);
    if failed.Moved? {
      AbortHomed(cfg, snap, failed, before, now);
      RespawnQuiet(CountCiFailure(failed.item), snap, now);
    }
  }

  lemma AwaitFixQuiet(it: Item, snap: Snapshot, before: seq<Action>, now: int)
    requires Still(before)
    ensures StaysQuiet(AwaitFix(it, snap, before, now), PastOf(it), snap, now)
  {
    hide RespawnForFeedback;
    var seen := if it.session.workspace.NoWorkspace? then it else CountLiveness(it, snap);
    RespawnFeedbackQuiet(seen, if it.feedback.message.NoMessage? then ReviewRequestedChanges else it.feedback.message, snap, now);
  }

  // ---- The recovery of a stalled reviewer -------------------------------------------------

  /** The conflict nudge asks for a rebase now. */
  predicate Nudges(cfg: Config, it: Item, snap: Snapshot, now: int) {
    && snap.isMergeable.No?
    && (it.rebase.requested ==> it.rebase.lastNudgeAt.At?)
    && IsRebaseStale(it.rebase.lastNudgeAt, now, cfg.rebaseRetryStaleMs)
  }

  /** The reviewer counts as dead and another round may start. */
  predicate Recovers(cfg: Config, it: Item, snap: Snapshot, now: int) {
    snap.hasReviewerComment.No? && InboxWaitStalled(cfg, it, snap, now) && it.review.round < cfg.maxReviewRounds
  }

  /** The recovered item does not come back to review-pending. */
  predicate MovesOn(cfg: Config, it: Item, snap: Snapshot) {
    !cfg.skipReview || !NeedsHuman(cfg, it, snap)
  }

  /** What the recovery leaves, with a rebase request asked for on the way. */
  predicate Recovered(cfg: Config, it: Item, step: Step, now: int) {
    && step.Step? && step.item.id == it.id
    && (if cfg.skipReview then step.item.state.Merging? else step.item.state.Reviewing?)
    && FeedbackSettled(step.item)
    && step.item.rebase.attempts == it.rebase.attempts && step.item.session.workspace == it.session.workspace
    && step.item.review.lastApproved == it.review.lastApproved && step.item.rebase.lastNudgeAt == At(now)
    && IsRebaseStale(it.rebase.lastNudgeAt, now, cfg.rebaseRetryStaleMs)
    && (exists j :: 0 <= j < |step.actions| && step.actions[j].DaemonRebase? && step.actions[j].id == it.id)
    && (forall j :: 0 <= j < |step.actions| && Moving(step.actions[j]) ==>
          step.actions[j].id == it.id && (step.actions[j].DaemonRebase? || step.actions[j].Merge?))
    && OneRebase(step.actions)
  }

  /** At most one of the actions is a rebase request. */
  predicate OneRebase(actions: seq<Action>) {
    forall i, j :: 0 <= i < j < |actions| ==> !(actions[i].DaemonRebase? && actions[j].DaemonRebase?)
  }

  lemma NudgesExactly(cfg: Config, it: Item, snap: Snapshot, now: int)
    requires snap.isMergeable.No?
    ensures var plan := PlanRebaseConflictAction(cfg, it, now);
      && plan.Step? && plan.item == it.(rebase := plan.item.rebase) && plan.item.rebase.attempts == it.rebase.attempts
      && (if Nudges(cfg, it, snap, now) then
            |plan.actions| == 1 && plan.actions[0].DaemonRebase? && plan.actions[0].id == it.id && plan.item.rebase.lastNudgeAt == At(now)
          else
            plan.actions == [] && (plan.item.rebase.lastNudgeAt == it.rebase.lastNudgeAt || plan.item.rebase.lastNudgeAt == At(now)))
  {
  }

  /** Where a recovered item goes: a fresh review, a merge, or back to a human. */
  lemma ReviewsAgain(cfg: Config, it: Item, snap: Snapshot, before: seq<Action>, now: int)
    requires it.state.ReviewPending? && FeedbackSettled(it) && it.review.lastReviewed.Absent? && !it.review.completed
    requires it.review.round < cfg.maxReviewRounds && !it.session.parked
    ensures var step := PassAndEvaluate(cfg, it, snap, before, now);
      && step.Step? && step.item.id == it.id && before <= step.actions && FeedbackSettled(step.item)
      && (if !cfg.skipReview then step.item.state.Reviewing?
          else if NeedsHuman(cfg, it, snap) then step.item.state.ReviewPending? else step.item.state.Merging?)
      && step.item.rebase.attempts == it.rebase.attempts && step.item.rebase.lastNudgeAt == it.rebase.lastNudgeAt
      && step.item.session.workspace == it.session.workspace
      && step.item.review.lastApproved == it.review.lastApproved
      && (forall j :: |before| <= j < |step.actions| && Moving(step.actions[j]) ==>
            step.actions[j].Merge? && step.actions[j].id == it.id && step.item.state.Merging?)
      && (forall i, j :: |before| <= i < j < |step.actions| ==> !(Moving(step.actions[i]) && Moving(step.actions[j])))
  {
    hide ResolvePendingFeedbackBatch, ContinuePendingFeedbackHandoff;
    var passed := Enter(it, CiPassed, now);
    ResolveQuiet(passed, snap, now);
    HandoffQuiet(passed, snap, now);
  }

  /** A recovered item asked for what its state is home to. */
  lemma RecoveryHomed(cfg: Config, snap: Snapshot, step: Step, first: seq<Action>, past: Past, now: int)
    requires step.Step? && FeedbackSettled(step.item) && first <= step.actions && RecordKept(step.item, past, snap, now)
    requires forall j :: 0 <= j < |first| && Moving(first[j]) ==>
      first[j].DaemonRebase? && first[j].id == step.item.id && step.item.state.ReviewPending? && step.item.rebase.lastNudgeAt == At(now)
      && IsRebaseStale(past.nudgedAt, now, cfg.rebaseRetryStaleMs)
      && !snap.ciStatus.Pass?
    requires forall j :: |first| <= j < |step.actions| && Moving(step.actions[j]) ==>
      step.actions[j].Merge? && step.actions[j].id == step.item.id && step.item.state.Merging?
    requires OneMove(first) && forall i, j :: |first| <= i < j < |step.actions| ==> !(Moving(step.actions[i]) && Moving(step.actions[j]))
    ensures Homed(cfg, snap, step, past, now)
  {
    hide FeedbackSettled;
    forall j | 0 <= j < |step.actions| && Moving(step.actions[j]) ensures InPlace(cfg, snap, past, step.item, step.actions[j], now) {
      if j < |first| {
        assert step.actions[j] == first[j];
      }
    }
    assert forall i :: 0 <= i < |first| ==> step.actions[i] == first[i];
  }

  lemma NudgeOrRecoverHomed(cfg: Config, it: Item, snap: Snapshot, before: seq<Action>, now: int)
    requires it.state.ReviewPending? && FeedbackSettled(it) && Still(before)
    requires WaitsForReview(cfg, it, snap) && !(it.review.completed && cfg.skipReview)
    ensures var step := NudgeOrRecoverReview(cfg, it, snap, before, now);
      if Nudges(cfg, it, snap, now) && Recovers(cfg, it, snap, now) && MovesOn(cfg, it, snap) then Recovered(cfg, it, step, now)
      else Homed(cfg, snap, step, PastOf(it), now)
  {
    hide PlanRebaseConflictAction, PassAndEvaluate, InboxWaitStalled, IsRebaseStale, NeedsHuman, Homed, InPlace;
    var nudged := if snap.isMergeable.No? then PlanRebaseConflictAction(cfg, it, now) else Step(it, []);
    if snap.isMergeable.No? {
      NudgesExactly(cfg, it, snap, now);
    }
    if Recovers(cfg, it, snap, now) {
      var first := before + nudged.actions;
      var mid := ForgetReview(nudged.item);
      NeedsHumanStays(cfg, it, mid, snap);
      ReviewsAgain(cfg, mid, snap, first, now);
      var step := PassAndEvaluate(cfg, mid, snap, first, now);
      if !(Nudges(cfg, it, snap, now) && MovesOn(cfg, it, snap)) {
        RecoveryHomed(cfg, snap, step, first, PastOf(it), now);
      } else {
        assert step.actions[|before|] == first[|before|] == nudged.actions[0];
      }
    } else {
      if snap.isMergeable.No? {
        PlanHomed(cfg, snap, it, now);
      } else {
        NothingHomed(cfg, snap, it, now);
      }
      HomedAfter(cfg, snap, nudged, before, PastOf(it), now);
    }
  }

  lemma NothingHomed(cfg: Config, snap: Snapshot, it: Item, now: int)
    ensures Homed(cfg, snap, Step(it, []), PastOf(it), now)
  {
  }

  lemma NeedsHumanStays(cfg: Config, it: Item, mid: Item, snap: Snapshot)
    requires mid.workItem == it.workItem
    ensures NeedsHuman(cfg, mid, snap) <==> NeedsHuman(cfg, it, snap)
  {
  }

  /** handleReviewPending's last branch: nothing to do but to wait for the review. */
  predicate WaitsForReview(cfg: Config, it: Item, snap: Snapshot) {
    && !MergeAllowed(cfg, it, snap)
    && !(it.session.parked && snap.reviewDecision.ChangesRequested?)
    && !snap.ciStatus.Fail?
    && (it.review.completed || !(UnchangedSinceReview(it, snap) || snap.ciStatus.InProgress? || snap.ciStatus.Pass?))
  }

  /** The recovery of a stalled reviewer asks for a rebase as well, and moves the item on. */
  predicate StraysFrom(cfg: Config, it: Item, snap: Snapshot, now: int) {
    WaitsForReview(cfg, it, snap) && Nudges(cfg, it, snap, now) && Recovers(cfg, it, snap, now) && MovesOn(cfg, it, snap)
  }

  lemma HandleSettledReviewHomed(cfg: Config, it: Item, snap: Snapshot, before: seq<Action>, now: int)
    requires it.state.ReviewPending? && FeedbackSettled(it) && Still(before) && !(it.review.completed && cfg.skipReview)
    ensures var step := HandleSettledReview(cfg, it, snap, before, now);
      if StraysFrom(cfg, it, snap, now) then Recovered(cfg, it, step, now) else Homed(cfg, snap, step, PastOf(it), now)
  {
    hide EvaluateMerge, RespawnForFeedback, FailCiFromReview, AwaitFix, RestartCi, PassAndEvaluate, NudgeOrRecoverReview,
         Nudges, Recovers, MovesOn, Recovered, Homed, StaysQuiet, Still;
    var past := PastOf(it);
    if WaitsForReview(cfg, it, snap) {
      NudgeOrRecoverHomed(cfg, it, snap, before, now);
    } else if MergeAllowed(cfg, it, snap) {
      NothingHomed(cfg, snap, it, now);
      HomedAfter(cfg, snap, Step(it, []), before, past, now);
      assert [] + before == before && before + [] == before;
      EvaluateMergeHomed(cfg, it, snap, now);
      HomedAfter(cfg, snap, EvaluateMerge(cfg, it, snap, now), before, past, now);
    } else {
      var message := if it.feedback.message.NoMessage? then GitHubRequestedChanges else it.feedback.message;
      RespawnFeedbackQuiet(it, message, snap, now);
      QuietHomed(cfg, snap, RespawnForFeedback(it, message, now), past, now);
      FailCiFromReviewHomed(cfg, it, snap, before, now);
      AwaitFixQuiet(it, snap, before, now);
      QuietHomed(cfg, snap, AwaitFix(it, snap, before, now), past, now);
      RestartCiQuiet(it, snap, before, now);
      QuietHomed(cfg, snap, RestartCi(it, snap, before, now), past, now);
      PassAndEvaluateHomed(cfg, it, snap, before, now);
    }
  }

  lemma HandleAnsweredReviewHomed(cfg: Config, it: Item, snap: Snapshot, before: seq<Action>, now: int)
    requires it.state.ReviewPending? && Still(before) && !(it.review.completed && cfg.skipReview)
    ensures var step := HandleAnsweredReview(cfg, it, snap, before, now);
      if FeedbackSettled(it) && StraysFrom(cfg, it, snap, now) then Recovered(cfg, it, step, now)
      else Homed(cfg, snap, step, PastOf(it), now)
  {
    hide ContinuePendingFeedbackHandoff, ResolvePendingFeedbackBatch, HandleSettledReview, StraysFrom, Recovered, Homed, StaysQuiet, Still;
    HandoffQuiet(it, snap, now);
    ResolveQuiet(it, snap, now);
    QuietHomed(cfg, snap, ContinuePendingFeedbackHandoff(it, snap, now), PastOf(it), now);
    QuietHomed(cfg, snap, ResolvePendingFeedbackBatch(it, snap, now), PastOf(it), now);
    if FeedbackSettled(it) {
      HandleSettledReviewHomed(cfg, it, snap, before, now);
    }
  }

  /** A feedback-done signal on unchanged code has been taken in. */
  predicate AnswersFeedback(it: Item, snap: Snapshot) {
    snap.feedbackDone && UnchangedSinceReview(it, snap)
  }

  function Answered(it: Item, snap: Snapshot): Item {
    if AnswersFeedback(it, snap) then FinishFeedback(it) else it
  }

  /** handleReviewPending gets as far as waiting for the review. */
  predicate ReachesReview(cfg: Config, it: Item, snap: Snapshot) {
    && it.state.ReviewPending?
    && !(it.review.completed && cfg.skipReview)
    && !((snap.noNewInfo || snap.pushback.Ref?) && UnchangedSinceReview(it, snap))
    && !(AnswersFeedback(it, snap) && (snap.ciStatus.InProgress? || snap.ciStatus.Pass?))
    && FeedbackSettled(Answered(it, snap))
  }

  predicate Strays(cfg: Config, it: Item, snap: Snapshot, now: int) {
    ReachesReview(cfg, it, snap) && StraysFrom(cfg, Answered(it, snap), snap, now)
  }

  lemma HandleFeedbackDoneHomed(cfg: Config, it: Item, snap: Snapshot, now: int)
    requires it.state.ReviewPending? && !(it.review.completed && cfg.skipReview)
    ensures var step := HandleFeedbackDone(cfg, it, snap, now);
      var done := FinishFeedback(it);
      if !snap.ciStatus.InProgress? && !snap.ciStatus.Pass? && FeedbackSettled(done) && StraysFrom(cfg, done, snap, now) then
        Recovered(cfg, done, step, now)
      else Homed(cfg, snap, step, PastOf(it), now)
  {
    hide HandleAnsweredReview, RestartCi, PassAndEvaluate, StraysFrom, Recovered, Homed, StaysQuiet;
    var done, signal := FinishFeedback(it), [ClearFeedbackDone(it.id)];
    RestartCiQuiet(done, snap, signal, now);
    QuietHomed(cfg, snap, RestartCi(done, snap, signal, now), PastOf(it), now);
    PassAndEvaluateHomed(cfg, done, snap, signal, now);
    HandleAnsweredReviewHomed(cfg, done, snap, signal, now);
  }

  lemma HandleReviewPendingHomed(cfg: Config, it: Item, snap: Snapshot, now: int)
    requires it.state.ReviewPending?
    ensures var step := HandleReviewPending(cfg, it, snap, now);
      if Strays(cfg, it, snap, now) then Recovered(cfg, Answered(it, snap), step, now) else Homed(cfg, snap, step, PastOf(it), now)
  {
    hide PassAndEvaluate, TryHandleNoNewInfo, TryHandlePushback, HandleFeedbackDone, HandleAnsweredReview, StraysFrom, Recovered, Homed,
         StaysQuiet, FeedbackSettled;
    PassAndEvaluateHomed(cfg, it, snap, [SetCommitStatus(it.id, it.pr.number, Pass)], now);
    NoNewInfoQuiet(it, snap, now);
    QuietHomed(cfg, snap, TryHandleNoNewInfo(it, snap, now), PastOf(it), now);
    PushbackHomed(cfg, it, snap, now);
    Signals(cfg, it, snap, now);
    if !(it.review.completed && cfg.skipReview) {
      HandleFeedbackDoneHomed(cfg, it, snap, now);
      HandleAnsweredReviewHomed(cfg, it, snap, [], now);
    }
  }

  /** When the worker's signals decline. */
  lemma Signals(cfg: Config, it: Item, snap: Snapshot, now: int)
    ensures TryHandleNoNewInfo(it, snap, now).Declined? <==> !(snap.noNewInfo && UnchangedSinceReview(it, snap))
    ensures it.state.ReviewPending? && snap.pushback.Ref? && UnchangedSinceReview(it, snap) ==> TryHandlePushback(cfg, it, snap, now).Step?
    ensures !(snap.pushback.Ref? && UnchangedSinceReview(it, snap)) ==> TryHandlePushback(cfg, it, snap, now).Declined?
    ensures it.state.ReviewPending? ==> !TryHandleNoNewInfo(it, snap, now).Throw?
  {
    hide ResumeCi, Keeps;
    if it.state.ReviewPending? {
      PushbackFacts(cfg, it, snap, now);
      PushbackTaken(cfg, it, snap, now);
    }
  }

  lemma PushbackTaken(cfg: Config, it: Item, snap: Snapshot, now: int)
    requires it.state.ReviewPending?
    ensures ResumeCi(cfg, RecordPushback(it, snap), snap, [ClearPushback(it.id)], now).Step?
  {
    hide ResumeCi, Count, KeepsItem;
    ResumeCiFacts(cfg, RecordPushback(it, snap), snap, [ClearPushback(it.id)], now);
  }

  lemma HandleMergingHomed(cfg: Config, it: Item, snap: Snapshot, now: int)
    requires it.state.Merging?
    ensures Homed(cfg, snap, HandleMerging(cfg, it, snap, now), PastOf(it), now)
  {
    hide ContinuePendingFeedbackHandoff, ResolvePendingFeedbackBatch;
    HandoffQuiet(it, snap, now);
    ResolveQuiet(it, snap, now);
  }

  lemma PostMergeQuiet(cfg: Config, it: Item, snap: Snapshot, now: int)
    requires !Active(it.state) && !it.state.FixingForward?
    ensures StaysQuiet(Handle(cfg, it, snap, now), PastOf(it), snap, now)
  {
    hide Transition;
    var failed := it.(repair := it.repair.(failCount := it.repair.failCount + 1));
    TransitionKeepsPast(failed, FixForwardFailed, now);
    TransitionKeepsPast(it, Done, now);
    TransitionKeepsPast(it, ForwardFixPending, now);
    TransitionKeepsPast(it, Stuck, now);
    TransitionKeepsPast(it, FixingForward, now);
  }

  lemma TransitionKeepsPast(it: Item, to: State, now: int)
    ensures var move := Transition(it, to, now); move.Moved? ==> PastOf(move.item) == PastOf(it)
  {
  }

  lemma HandleFixingForwardHomed(cfg: Config, it: Item, snap: Snapshot, now: int)
    requires it.state.FixingForward?
    ensures Homed(cfg, snap, HandleFixingForward(cfg, it, snap, now), PastOf(it), now)
  {
    hide HandleCiPending;
    if RepairPrVisible(snap) && !snap.prState.PrMerged? {
      HandleCiPendingHomed(cfg, Enter(AdoptRepairPr(it, snap.prNumber.n), CiPending, now), snap, now);
    }
  }

  // ---- A whole poll of one item -----------------------------------------------------------

  lemma HandleHomed(cfg: Config, it: Item, snap: Snapshot, now: int)
    requires ParkedOk(it) && !ExternallyMerged(it, snap)
    ensures var step := Handle(cfg, it, snap, now);
      if Strays(cfg, it, snap, now) then Recovered(cfg, Answered(it, snap), step, now) else Homed(cfg, snap, step, PastAfter(it, snap), now)
  {
    hide HandleLaunching, HandleImplementing, HandleCiPending, HandleCiPassed, HandleCiFailed, HandleRebasing, HandleReviewing,
         HandleReviewPending, HandleMerging, HandleFixingForward, HandleMerged, HandleForwardFixPending, HandleFixForwardFailed,
         Homed, Recovered, StraysFrom, StaysQuiet, FeedbackSettled;
    var past := PastOf(it);
    match it.state {
      case Launching =>
        HandleLaunchingQuiet(cfg, it, snap, now);
        QuietHomed(cfg, snap, HandleLaunching(cfg, it, snap, now), past, now);
      case Implementing => HandleImplementingHomed(cfg, it, snap, now);
      case CiPending => HandleCiPendingHomed(cfg, it, snap, now);
      case CiPassed => HandleCiPassedHomed(cfg, it, snap, now);
      case CiFailed => HandleCiFailedHomed(cfg, it, snap, now);
      case Rebasing =>
        HandleRebasingQuiet(it, snap, now);
        QuietHomed(cfg, snap, HandleRebasing(it, snap, now), past, now);
      case Reviewing => HandleReviewingHomed(cfg, it, snap, now);
      case ReviewPending => HandleReviewPendingHomed(cfg, it, snap, now);
      case Merging => HandleMergingHomed(cfg, it, snap, now);
      case FixingForward => HandleFixingForwardHomed(cfg, it, snap, now);
      case _ =>
        PostMergeQuiet(cfg, it, snap, now);
        QuietHomed(cfg, snap, Handle(cfg, it, snap, now), past, now);
    }
  }

  /** The poll recovers a stalled reviewer and nudges as well. */
  predicate PollStrays(cfg: Config, it: Item, snap: Snapshot, now: int) {
    !ExternallyMerged(it, snap) && Strays(cfg, Seen(it, snap, now), snap, now)
  }

  lemma TailHomed(cfg: Config, body: Step, past: Past, snap: Snapshot, now: int)
    requires body.Step? && ParkedOk(body.item) && Homed(cfg, snap, body, past, now)
    ensures Homed(cfg, snap, Tail(body.item, snap, now).After(body.actions), past, now)
  {
    hide Tail, ResolvePendingFeedbackBatch, FeedbackSettled, HeldForHuman;
    var it := body.item;
    ResolveQuiet(it, snap, now);
    TailIsResolve(it, snap, now);
    var tail := Tail(it, snap, now);
    if tail.Step? {
      var all := tail.After(body.actions).actions;
      forall j | 0 <= j < |all| && Moving(all[j]) ensures InPlace(cfg, snap, past, tail.item, all[j], now) {
        MovingFirst(body.actions, tail.actions, j);
        TailKeepsPlace(cfg, past, it, body.actions[j], snap, now);
      }
    }
  }

  lemma MovingFirst(a: seq<Action>, b: seq<Action>, j: nat)
    requires Still(b) && j < |a + b| && Moving((a + b)[j])
    ensures j < |a|
  {
  }

  lemma TailKeepsPlace(cfg: Config, past: Past, it: Item, a: Action, snap: Snapshot, now: int)
    requires InPlace(cfg, snap, past, it, a, now) && Moving(a) && ParkedOk(it)
    ensures var tail := Tail(it, snap, now); tail.Step? && InPlace(cfg, snap, past, tail.item, a, now)
  {
    hide Tail;
    if it.state.CiPending? || it.state.CiFailed? {
      TailStays(it, snap, now);
    } else {
      NoBatchNoTail(it, snap, now);
    }
  }

  lemma RecoveredTail(cfg: Config, it: Item, body: Step, snap: Snapshot, now: int)
    requires Recovered(cfg, it, body, now)
    ensures Recovered(cfg, it, Tail(body.item, snap, now).After(body.actions), now)
  {
    NoBatchNoTail(body.item, snap, now);
    assert body.actions + [] == body.actions;
  }

  /** A nudging poll does not reset what the rebase attempts are counted by. */
  lemma SeenKeepsAttempts(it: Item, snap: Snapshot, now: int)
    requires snap.isMergeable.No?
    ensures Seen(it, snap, now).rebase.attempts == it.rebase.attempts
    ensures Seen(it, snap, now).rebase == UpdateRebaseTracking(it, snap, now).rebase
  {
  }

  lemma RecoveredFrom(cfg: Config, it: Item, mid: Item, step: Step, now: int)
    requires Recovered(cfg, mid, step, now) && mid.id == it.id && mid.rebase == it.rebase
    requires mid.session == it.session && mid.review.lastApproved == it.review.lastApproved
    ensures Recovered(cfg, it, step, now)
  {
    hide FeedbackSettled;
  }

  /**
   * Main result: every action a poll asks for that moves its item finds it in place, exactly unless
   * the poll recovers a stalled reviewer and nudges as well. A rebase request is on record with the
   * time of the poll, and the approved commit changes by an approve verdict only.
   */
  lemma PollInPlace(cfg: Config, it: Item, snap: Snapshot, now: int)
    requires ParkedOk(it) && TransitionItem(cfg, it, snap, now).Step?
    ensures var step := TransitionItem(cfg, it, snap, now);
      var seen := Seen(it, snap, now);
      if PollStrays(cfg, it, snap, now) then Recovered(cfg, seen, step, now)
      else Homed(cfg, snap, step, if ExternallyMerged(it, snap) then PastOf(it) else PastAfter(seen, snap), now)
  {
    hide Seen, Handle, Tail, Strays, Recovered, Homed, ParkedOk;
    SeenStands(it, snap, now);
    var seen := Seen(it, snap, now);
    var step := TransitionItem(cfg, it, snap, now);
    if ExternallyMerged(it, snap) {
      MergedOutside(it, snap, now);
      QuietHomed(cfg, snap, step, PastOf(it), now);
    } else {
      BodyParkedOk(cfg, it, snap, now);
      SeenParkedOk(it, seen);
      HandleHomed(cfg, seen, snap, now);
      var body := Handle(cfg, seen, snap, now);
      if PollStrays(cfg, it, snap, now) {
        RecoveredFrom(cfg, seen, Answered(seen, snap), body, now);
        RecoveredTail(cfg, seen, body, snap, now);
      } else {
        TailHomed(cfg, body, PastAfter(seen, snap), snap, now);
      }
    }
  }

  lemma SeenParkedOk(it: Item, seen: Item)
    requires ParkedOk(it) && seen.session == it.session && seen.state == it.state
    ensures ParkedOk(seen)
  {
  }

  lemma StraysNudge(cfg: Config, it: Item, snap: Snapshot, now: int)
    requires Strays(cfg, it, snap, now)
    ensures snap.isMergeable.No?
  {
  }

  lemma MergedOutside(it: Item, snap: Snapshot, now: int)
    requires ExternallyMerged(it, snap)
    ensures StaysQuiet(InterceptExternalMerge(RecordMergeCommit(it, snap), snap, now), PastOf(it), snap, now)
  {
  }

  lemma BodyParkedOk(cfg: Config, it: Item, snap: Snapshot, now: int)
    requires ParkedOk(it)
    ensures Body(cfg, it, snap, now).Step? ==> ParkedOk(Body(cfg, it, snap, now).item)
  {
    hide Body, Sound;
    BodyLeaves(cfg, it, snap, now);
  }

  /**
   * Main result: when the poll recovers a stalled reviewer and nudges, the request it asks for is
   * executed while the new review runs, or, with reviews skipped, while the item merges. It throws
   * exactly when a review runs, the rebase attempts are used up, and neither the daemon nor a live
   * worker takes the rebase; while the item merges the same answers get it stuck.
   */
  lemma StalledReviewThrowsExactly(cfg: Config, it: Item, snap: Snapshot, now: int, items: seq<Item>, escalate: bool, answers: Answers,
                                   later: int)
    requires ParkedOk(it) && PollStrays(cfg, it, snap, now)
    ensures var step := TransitionItem(cfg, it, snap, now);
      && step.Step? && (if cfg.skipReview then step.item.state.Merging? else step.item.state.Reviewing?)
      && (exists a :: a in step.actions && a.DaemonRebase? && a.id == it.id && !AtHome(step.item, a))
      && var move := ExecuteAction(cfg, items, step.item, DaemonRebase(it.id, escalate), answers, later);
      && (move.Illegal? <==> !cfg.skipReview && GivesUp(cfg, it, escalate, answers))
      && (cfg.skipReview ==> (move.item.state.Stuck? <==> GivesUp(cfg, it, escalate, answers)))
  {
    hide TransitionItem, Strays, FeedbackSettled, ExecuteDaemonRebase, Seen, IsRebaseStale;
    NeverThrowsReviewPending(cfg, it, snap, now);
    PollInPlace(cfg, it, snap, now);
    SeenStands(it, snap, now);
    StraysNudge(cfg, Seen(it, snap, now), snap, now);
    SeenKeepsAttempts(it, snap, now);
    var step := TransitionItem(cfg, it, snap, now);
    DaemonRebaseThrowsExactly(cfg, step.item, escalate, answers, later);
    RebaseWhileMerging(cfg, step.item, escalate, answers, later);
  }

  /** A rebase request that finds its item merging never throws, and leaves it merging, in CI, or stuck. */
  lemma RebaseWhileMerging(cfg: Config, it: Item, escalate: bool, answers: Answers, now: int)
    ensures it.state.Merging? ==>
      var move := ExecuteDaemonRebase(cfg, it, escalate, answers, now);
      && move.Moved? && (move.item.state.Merging? || move.item.state.CiPending? || move.item.state.Stuck?)
      && (move.item.state.Stuck? <==> GivesUp(cfg, it, escalate, answers))
  {
  }

  lemma NeverThrowsReviewPending(cfg: Config, it: Item, snap: Snapshot, now: int)
    requires ParkedOk(it) && PollStrays(cfg, it, snap, now)
    ensures TransitionItem(cfg, it, snap, now).Step?
  {
    hide TransitionItem, Sound, StraysFrom;
    ThrowsExactly(cfg, it, snap, now);
  }

  // ---- Inputs -----------------------------------------------------------------------------

  /**
   * A conflict and a reviewer that never answered, with the rebase attempts used up: the poll starts
   * a new review, and executing its rebase request throws.
   */
  lemma StalledReviewThrows(cfg: Config, w: WorkItem, now: int, items: seq<Item>, answers: Answers)
    requires cfg.inboxWaitExpireMs > 0 && now > cfg.inboxWaitExpireMs && cfg.maxReviewRounds > 0 && !cfg.skipReview
    requires !answers.rebased
    ensures var added := NewItem(w, 0);
      var waiting := added.(state := ReviewPending, rebase := added.rebase.(attempts := cfg.maxRebaseAttempts));
      var snap := NoSnapshot().(isMergeable := No, hasReviewerComment := No);
      var step := TransitionItem(cfg, waiting, snap, now);
      && step.Step? && step.item.state.Reviewing?
      && ExecuteAction(cfg, items, step.item, DaemonRebase(w.id, false), answers, now).Illegal?
  {
    hide TransitionItem, ExecuteAction;
    var added := NewItem(w, 0);
    var waiting := added.(state := ReviewPending, rebase := added.rebase.(attempts := cfg.maxRebaseAttempts));
    var snap := NoSnapshot().(isMergeable := No, hasReviewerComment := No);
    StalledInput(cfg, waiting, snap, now);
    StalledReviewThrowsExactly(cfg, waiting, snap, now, items, false, answers, now);
  }

  lemma StalledInput(cfg: Config, it: Item, snap: Snapshot, now: int)
    requires cfg.inboxWaitExpireMs > 0 && now > cfg.inboxWaitExpireMs && cfg.maxReviewRounds > 0 && !cfg.skipReview
    requires it == NewItem(it.workItem, 0).(state := ReviewPending, rebase := it.rebase)
    requires it.rebase.lastNudgeAt.Undefined? && !it.rebase.requested
    requires snap == NoSnapshot().(isMergeable := No, hasReviewerComment := No)
    ensures ParkedOk(it) && PollStrays(cfg, it, snap, now)
  {
    assert HumanComments([]) == [];
  }

  // ---- The approved head ------------------------------------------------------------------

  /**
   * Main result: the head a poll asks to merge is the approved commit exactly when this poll read
   * the approve verdict, or the head is the commit approved before.
   */
  lemma MergesApprovedHeadExactly(cfg: Config, it: Item, snap: Snapshot, now: int)
    requires ParkedOk(it) && TransitionItem(cfg, it, snap, now).Step?
    ensures snap.headSha == TransitionItem(cfg, it, snap, now).item.review.lastApproved <==>
      (ApproveSeen(it, snap) && !ExternallyMerged(it, snap)) || snap.headSha == it.review.lastApproved
  {
    hide TransitionItem, PollStrays, FeedbackSettled, InPlace, Seen;
    PollInPlace(cfg, it, snap, now);
    SeenStands(it, snap, now);
    if PollStrays(cfg, it, snap, now) {
      StraysUnapproved(cfg, it, snap, now);
    }
  }

  lemma StraysUnapproved(cfg: Config, it: Item, snap: Snapshot, now: int)
    requires PollStrays(cfg, it, snap, now)
    ensures !ApproveSeen(it, snap)
  {
  }

  /** The same for the forced re-evaluation, which reads no verdict. */
  lemma ReevaluationKeepsApproval(cfg: Config, it: Item, snap: Snapshot, now: int)
    requires Reevaluate(cfg, it, snap, now).Step?
    ensures Reevaluate(cfg, it, snap, now).item.review.lastApproved == it.review.lastApproved
  {
    hide EvaluateMerge, InPlace;
    EvaluateMergeHomed(cfg, it, snap, now);
  }

  /** The review approved commit 1; commit 2 turns green and is merged on the strength of it. */
  lemma MergesUnapprovedHead(cfg: Config, w: WorkItem, now: int)
    requires cfg.mergeStrategy.Auto? && !cfg.skipReview && !w.requiresManualReview
    ensures var added := NewItem(w, 0);
      var approved := added.(state := ReviewPending, review := added.review.(completed := true, round := 1, lastReviewed := Ref(1), lastApproved := Ref(1)));
      var snap := NoSnapshot().(ciStatus := Pass, headSha := Ref(2));
      var step := TransitionItem(cfg, approved, snap, now);
      && step.Step? && step.item.state.Merging? && step.actions == [Merge(w.id, Absent, false)]
      && step.item.review.lastApproved == Ref(1) != snap.headSha
  {
    hide Seen;
    var added := NewItem(w, 0);
    var approved := added.(state := ReviewPending, review := added.review.(completed := true, round := 1, lastReviewed := Ref(1), lastApproved := Ref(1)));
    var snap := NoSnapshot().(ciStatus := Pass, headSha := Ref(2));
    SeenStands(approved, snap, now);
    assert HumanComments([]) == [];
    var seen := Seen(approved, snap, now);
    assert Handle(cfg, seen, snap, now) == EvaluateMerge(cfg, seen, snap, now).After([]);
    assert EvaluateMerge(cfg, seen, snap, now) == HoldOrMerge(cfg, seen, snap, now);
    NoBatchNoTail(HoldOrMerge(cfg, seen, snap, now).item, snap, now);
  }
}
