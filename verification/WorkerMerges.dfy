/**
 * An item in review-pending whose worker still has its workspace waits for it before it merges
 * (core/orchestrator.ts:1730): exactly when a poll merges it all the same.
 */
module WorkerMerges {
  import opened OrchestratorTypes
  import opened OrchestratorGuards
  import opened Lifecycle
  import opened LifecycleFacts
  import opened LifecycleSteps
  import opened FeedbackTiming
  import opened ActionHomes
  import PollFacts

  /** The step asks for the merge it starts. */
  predicate AsksForMerge(cfg: Config, step: Step) {
    Merges(step) ==> Merge(step.item.id, step.item.pr.number, cfg.mergeStrategy.Bypass?) in step.actions
  }

  /** The worker reports that there is nothing new to do about the commit it was asked about. */
  predicate ReportsNothingNew(it: Item, snap: Snapshot) {
    snap.noNewInfo && UnchangedSinceReview(it, snap)
  }

  /** Merge evaluation merges an item without an open review, and without anything a human said or has to do. */
  predicate PassesGate(cfg: Config, it: Item, snap: Snapshot) {
    (it.review.completed || cfg.skipReview) && FeedbackSettled(it) && !NeedsHuman(cfg, it, snap)
  }

  lemma AfterMerges(cfg: Config, step: Step, before: seq<Action>)
    ensures Merges(step.After(before)) <==> Merges(step)
    ensures AsksForMerge(cfg, step) ==> AsksForMerge(cfg, step.After(before))
  {
    if Merges(step) && AsksForMerge(cfg, step) {
      var merge := Merge(step.item.id, step.item.pr.number, cfg.mergeStrategy.Bypass?);
      var j :| 0 <= j < |step.actions| && step.actions[j] == merge;
      assert (before + step.actions)[|before| + j] == merge;
    }
  }

  // ---- Merge evaluation -------------------------------------------------------------------

  /** No feedback that is still on its way lets the item merge. */
  lemma FeedbackHoldsMerge(it: Item, snap: Snapshot, now: int)
    requires it.state.CiPassed?
    ensures var handoff := ContinuePendingFeedbackHandoff(it, snap, now);
      !Merges(handoff) && (handoff.Declined? <==> !HandoffPending(it)) && !handoff.Throw?
    ensures var resolved := ResolvePendingFeedbackBatch(it, snap, now);
      !Merges(resolved) && (resolved.Declined? <==> !HasBatch(it)) && (!it.session.parked ==> !resolved.Throw?)
  {
  }

  lemma NothingNewHoldsMerge(it: Item, snap: Snapshot, now: int)
    requires it.state.CiPassed?
    ensures var settled := TryHandleNoNewInfo(it, snap, now);
      !Merges(settled) && !settled.Throw? && (settled.Declined? <==> !ReportsNothingNew(it, snap))
  {
  }

  lemma RoundHoldsMerge(cfg: Config, it: Item, snap: Snapshot, now: int)
    requires it.state.CiPassed?
    ensures LaunchReviewRound(cfg, it, snap, now).Step? && !Merges(LaunchReviewRound(cfg, it, snap, now))
  {
  }

  lemma HoldMergesExactly(cfg: Config, it: Item, snap: Snapshot, now: int)
    requires it.state.CiPassed?
    ensures var step := HoldOrMerge(cfg, it, snap, now);
      step.Step? && (Merges(step) <==> !NeedsHuman(cfg, it, snap)) && AsksForMerge(cfg, step)
  {
  }

  lemma EvaluationMergesExactly(cfg: Config, it: Item, snap: Snapshot, now: int)
    requires it.state.CiPassed? && !it.session.parked
    ensures var step := EvaluateMerge(cfg, it, snap, now);
      step.Step? && (Merges(step) <==> !ReportsNothingNew(it, snap) && PassesGate(cfg, it, snap)) && AsksForMerge(cfg, step)
  {
    hide TryHandleNoNewInfo, ContinuePendingFeedbackHandoff, ResolvePendingFeedbackBatch, LaunchReviewRound, HoldOrMerge, NeedsHuman,
         ReportsNothingNew;
    NothingNewHoldsMerge(it, snap, now);
    FeedbackHoldsMerge(it, snap, now);
    var gated := it.(review := it.review.(completed := it.review.completed || cfg.skipReview));
    RoundHoldsMerge(cfg, gated, snap, now);
    HoldMergesExactly(cfg, gated, snap, now);
    NeedsHumanStays(cfg, it, gated, snap);
  }

  lemma PassMergesExactly(cfg: Config, it: Item, snap: Snapshot, before: seq<Action>, now: int)
    requires it.state.ReviewPending? || it.state.CiPending?
    ensures var step := PassAndEvaluate(cfg, it, snap, before, now);
      step.Step? && (Merges(step) <==> !ReportsNothingNew(it, snap) && PassesGate(cfg, it, snap)) && AsksForMerge(cfg, step)
  {
    hide EvaluateMerge;
    var passed := Enter(it, CiPassed, now);
    EvaluationMergesExactly(cfg, passed, snap, now);
    AfterMerges(cfg, EvaluateMerge(cfg, passed, snap, now), before);
  }

  // ---- The branches of handleReviewPending -------------------------------------------------

  /** Merges a pushback starts: the reviews are skipped, and CI passed without a conflict. */
  lemma PushbackMergesExactly(cfg: Config, it: Item, snap: Snapshot, now: int)
    requires it.state.ReviewPending? && snap.pushback.Ref? && UnchangedSinceReview(it, snap)
    ensures var step := TryHandlePushback(cfg, it, snap, now);
      && !step.Declined? && AsksForMerge(cfg, step)
      && (Merges(step) <==>
            cfg.skipReview && snap.ciStatus.Pass? && !snap.isMergeable.No? && !HasBatch(it) && !NeedsHuman(cfg, it, snap))
  {
    hide HandleCiPending, NeedsHuman;
    var recorded := RecordPushback(it, snap);
    var pending := Enter(recorded, CiPending, now);
    PendingMergesExactly(cfg, pending, snap, now);
    var sync := if it.pr.baseBranch.Ref? then [SyncStackComments(it.id)] else [];
    AfterMerges(cfg, HandleCiPending(cfg, pending, snap, now), [ClearPushback(it.id)] + sync);
    NeedsHumanStays(cfg, it, pending, snap);
  }

  lemma PendingMergesExactly(cfg: Config, it: Item, snap: Snapshot, now: int)
    requires it.state.CiPending? && !it.session.parked
    ensures var step := HandleCiPending(cfg, it, snap, now);
      && step.Step? && AsksForMerge(cfg, step)
      && (Merges(step) <==>
            snap.ciStatus.Pass? && !snap.isMergeable.No? && !ReportsNothingNew(it, snap) && PassesGate(cfg, it, snap))
  {
    hide FailCi, PlanRebaseConflictAction, PassAndEvaluate, ResolvePendingFeedbackBatch, PassesGate, ReportsNothingNew;
    FailureHoldsMerge(cfg, it, snap, now);
    PassMergesExactly(cfg, it, snap, [], now);
  }

  lemma FailureHoldsMerge(cfg: Config, it: Item, snap: Snapshot, now: int)
    requires it.state.CiPending? && !it.session.parked
    ensures FailCi(cfg, it, snap, now).Step? && !Merges(FailCi(cfg, it, snap, now))
    ensures var plan := PlanRebaseConflictAction(cfg, it, now); plan.Step? && !Merges(plan)
    ensures var resolved := ResolvePendingFeedbackBatch(it, snap, now).OrStay(it); resolved.Step? && !Merges(resolved)
  {
  }

  /** The recovery of a stalled reviewer merges when the reviews are skipped. */
  lemma RecoveryMergesExactly(cfg: Config, it: Item, snap: Snapshot, before: seq<Action>, now: int)
    requires it.state.ReviewPending? && FeedbackSettled(it)
    ensures var step := NudgeOrRecoverReview(cfg, it, snap, before, now);
      && AsksForMerge(cfg, step)
      && (Merges(step) <==> cfg.skipReview && Recovers(cfg, it, snap, now) && !NeedsHuman(cfg, it, snap))
  {
    hide PassAndEvaluate, InboxWaitStalled, NeedsHuman, PlanRebaseConflictAction;
    PlanStays(cfg, it, now);
    var nudged := if snap.isMergeable.No? then PlanRebaseConflictAction(cfg, it, now) else Step(it, []);
    var mid := ForgetReview(nudged.item);
    NeedsHumanStays(cfg, it, mid, snap);
    PassMergesExactly(cfg, mid, snap, before + nudged.actions, now);
  }

  lemma PlanStays(cfg: Config, it: Item, now: int)
    ensures var plan := PlanRebaseConflictAction(cfg, it, now); plan.Step? && plan.item == it.(rebase := plan.item.rebase)
  {
  }

  /** The last branches merge over a worker only if the reviews are skipped. */
  predicate SettledMerges(cfg: Config, it: Item, snap: Snapshot, now: int) {
    && cfg.skipReview && !NeedsHuman(cfg, it, snap) && !UnchangedSinceReview(it, snap)
    && ((snap.ciStatus.Pass? && !snap.reviewDecision.Approved?)
        || (!snap.ciStatus.Pass? && !snap.ciStatus.Fail? && !snap.ciStatus.InProgress? && Recovers(cfg, it, snap, now)))
  }

  lemma SettledMergesExactly(cfg: Config, it: Item, snap: Snapshot, before: seq<Action>, now: int)
    requires it.state.ReviewPending? && it.session.workspace.Workspace? && FeedbackSettled(it)
    requires !(it.review.completed && cfg.skipReview)
    ensures var step := HandleSettledReview(cfg, it, snap, before, now);
      AsksForMerge(cfg, step) && (Merges(step) <==> SettledMerges(cfg, it, snap, now))
  {
    hide EvaluateMerge, RespawnForFeedback, FailCiFromReview, AwaitFix, RestartCi, PassAndEvaluate, NudgeOrRecoverReview, Recovers;
    WorkHoldsMerge(cfg, it, snap, before, now);
    PassMergesExactly(cfg, it, snap, before, now);
    RecoveryMergesExactly(cfg, it, snap, before, now);
  }

  /** The branches that wait for the worker or for CI. */
  lemma WorkHoldsMerge(cfg: Config, it: Item, snap: Snapshot, before: seq<Action>, now: int)
    requires it.state.ReviewPending?
    ensures forall message :: !Merges(RespawnForFeedback(it, message, now))
    ensures !Merges(FailCiFromReview(cfg, it, snap, before, now)) && !Merges(AwaitFix(it, snap, before, now))
    ensures !Merges(RestartCi(it, snap, before, now))
  {
  }

  lemma AnsweredMergesExactly(cfg: Config, it: Item, snap: Snapshot, before: seq<Action>, now: int)
    requires it.state.ReviewPending? && it.session.workspace.Workspace? && !(it.review.completed && cfg.skipReview)
    ensures var step := HandleAnsweredReview(cfg, it, snap, before, now);
      AsksForMerge(cfg, step) && (Merges(step) <==> FeedbackSettled(it) && SettledMerges(cfg, it, snap, now))
  {
    hide ContinuePendingFeedbackHandoff, ResolvePendingFeedbackBatch, HandleSettledReview, SettledMerges;
    FeedbackHolds(it, snap, now);
    if FeedbackSettled(it) {
      SettledMergesExactly(cfg, it, snap, before, now);
    }
  }

  /** The same in review-pending. */
  lemma FeedbackHolds(it: Item, snap: Snapshot, now: int)
    requires it.state.ReviewPending?
    ensures var handoff := ContinuePendingFeedbackHandoff(it, snap, now);
      !Merges(handoff) && (handoff.Declined? <==> !HandoffPending(it))
    ensures var resolved := ResolvePendingFeedbackBatch(it, snap, now);
      !Merges(resolved) && (resolved.Declined? <==> !HasBatch(it))
  {
  }

  /** A feedback-done signal merges a reviewed item; otherwise it leads to the last branches. */
  predicate DoneMerges(cfg: Config, it: Item, snap: Snapshot, now: int) {
    if snap.ciStatus.Pass? then (it.review.completed || cfg.skipReview) && !NeedsHuman(cfg, it, snap)
    else SettledMerges(cfg, FinishFeedback(it), snap, now)
  }

  lemma DoneMergesExactly(cfg: Config, it: Item, snap: Snapshot, now: int)
    requires it.state.ReviewPending? && it.session.workspace.Workspace? && !(it.review.completed && cfg.skipReview)
    ensures var step := HandleFeedbackDone(cfg, it, snap, now);
      AsksForMerge(cfg, step) && (Merges(step) <==> !HasBatch(it) && DoneMerges(cfg, it, snap, now))
  {
    hide HandleAnsweredReview, RestartCi, PassAndEvaluate, SettledMerges, NeedsHuman;
    var done, signal := FinishFeedback(it), [ClearFeedbackDone(it.id)];
    NeedsHumanStays(cfg, it, done, snap);
    WorkHoldsMerge(cfg, done, snap, signal, now);
    PassMergesExactly(cfg, done, snap, signal, now);
    AnsweredMergesExactly(cfg, done, snap, signal, now);
    InProgressHolds(cfg, done, snap, now);
  }

  lemma InProgressHolds(cfg: Config, it: Item, snap: Snapshot, now: int)
    ensures snap.ciStatus.InProgress? ==> !SettledMerges(cfg, it, snap, now)
  {
  }

  // ---- A whole poll -----------------------------------------------------------------------

  /** The poll of a review-pending item merges over its worker. */
  predicate MergesOverWorker(cfg: Config, it: Item, snap: Snapshot, now: int) {
    && !snap.prState.PrMerged? && !HasBatch(it) && !ReportsNothingNew(it, snap)
    && if it.review.completed && cfg.skipReview then !HandoffPending(it) && !NeedsHuman(cfg, it, snap)
       else if snap.pushback.Ref? && UnchangedSinceReview(it, snap) then
         cfg.skipReview && snap.ciStatus.Pass? && !snap.isMergeable.No? && !NeedsHuman(cfg, it, snap)
       else if AnswersFeedback(it, snap) then DoneMerges(cfg, it, snap, now)
       else !HandoffPending(it) && SettledMerges(cfg, it, snap, now)
  }

  lemma HandlerMergesExactly(cfg: Config, it: Item, snap: Snapshot, now: int)
    requires it.state.ReviewPending? && it.session.workspace.Workspace? && !snap.prState.PrMerged?
    ensures var step := HandleReviewPending(cfg, it, snap, now);
      AsksForMerge(cfg, step) && (Merges(step) <==> MergesOverWorker(cfg, it, snap, now))
  {
    hide PassAndEvaluate, TryHandleNoNewInfo, TryHandlePushback, HandleFeedbackDone, HandleAnsweredReview, SettledMerges, DoneMerges,
         NeedsHuman;
    PassMergesExactly(cfg, it, snap, [SetCommitStatus(it.id, it.pr.number, Pass)], now);
    Signals(cfg, it, snap, now);
    SettlingHolds(it, snap, now);
    if !(it.review.completed && cfg.skipReview) {
      if snap.pushback.Ref? && UnchangedSinceReview(it, snap) {
        PushbackMergesExactly(cfg, it, snap, now);
      }
      DoneMergesExactly(cfg, it, snap, now);
      AnsweredMergesExactly(cfg, it, snap, [], now);
    }
  }

  lemma SettlingHolds(it: Item, snap: Snapshot, now: int)
    requires it.state.ReviewPending?
    ensures !Merges(TryHandleNoNewInfo(it, snap, now))
  {
  }

  /** The last step of a poll neither starts a merge nor stops one without a batch. */
  lemma TailMergesNothing(cfg: Config, body: Step, snap: Snapshot, now: int)
    requires body.Step? && AsksForMerge(cfg, body) && (Merges(body) ==> !HasBatch(body.item))
    ensures var step := Tail(body.item, snap, now).After(body.actions);
      (step.Step? ==> (Merges(step) <==> Merges(body))) && AsksForMerge(cfg, step)
  {
    hide Tail;
    if Merges(body) {
      NoBatchNoTail(body.item, snap, now);
      assert body.actions + [] == body.actions;
    } else {
      TailStartsNothing(body.item, snap, now);
    }
  }

  lemma TailStartsNothing(it: Item, snap: Snapshot, now: int)
    requires !it.state.Merging?
    ensures !Merges(Tail(it, snap, now))
  {
  }

  /**
   * Main result: the poll of a review-pending item whose worker has its workspace starts the merge,
   * and asks for it, exactly under `MergesOverWorker`, with the comments of the poll taken in.
   */
  lemma WorkerMergesExactly(cfg: Config, it: Item, snap: Snapshot, now: int)
    requires it.state.ReviewPending? && it.session.workspace.Workspace?
    ensures var step := TransitionItem(cfg, it, snap, now);
      && step.Step? && AsksForMerge(cfg, step)
      && (Merges(step) <==> MergesOverWorker(cfg, IngestPendingFeedbackBatch(it, snap), snap, now))
  {
    hide Seen, HandleReviewPending, Tail, MergesOverWorker, AsksForMerge, Sound, IngestPendingFeedbackBatch;
    SeenStands(it, snap, now);
    ThrowsExactly(cfg, it, snap, now);
    var seen := Seen(it, snap, now);
    if ExternallyMerged(it, snap) {
      OutsideMerge(cfg, it, snap, now);
    } else {
      HandlerMergesExactly(cfg, seen, snap, now);
      IngestStands(it, snap);
      SameForSeen(cfg, seen, IngestPendingFeedbackBatch(it, snap), snap, now);
      var body := HandleReviewPending(cfg, seen, snap, now);
      MergingIsSettled(cfg, seen, snap, now);
      TailMergesNothing(cfg, body, snap, now);
    }
  }

  /**
   * While reviews are on, the one way past the worker is its own signal: it is done with the feedback
   * on a reviewed commit whose checks pass.
   */
  lemma ReviewedMergesExactly(cfg: Config, it: Item, snap: Snapshot, now: int)
    requires it.state.ReviewPending? && it.session.workspace.Workspace? && !cfg.skipReview
    ensures var step := TransitionItem(cfg, it, snap, now);
      var held := IngestPendingFeedbackBatch(it, snap);
      step.Step? && (Merges(step) <==>
        && AnswersFeedback(it, snap) && snap.ciStatus.Pass? && it.review.completed && !NeedsHuman(cfg, it, snap)
        && !snap.prState.PrMerged? && !snap.noNewInfo && !snap.pushback.Ref? && !HasBatch(held))
  {
    hide TransitionItem, NeedsHuman, IngestPendingFeedbackBatch, InboxWaitStalled;
    IngestStands(it, snap);
    WorkerMergesExactly(cfg, it, snap, now);
    NeedsHumanStays(cfg, it, IngestPendingFeedbackBatch(it, snap), snap);
  }

  /** Reviews were switched off while the item waited for its worker: the next poll merges it, whatever it sees of CI. */
  lemma DrainMergesOverWorker(cfg: Config, w: WorkItem, status: Status, now: int)
    requires cfg.skipReview && !cfg.mergeStrategy.Manual? && !w.requiresManualReview
    ensures var added := NewItem(w, 0);
      var it := added.(state := ReviewPending, session := added.session.(workspace := Workspace(1, false)),
                       review := added.review.(completed := true));
      var snap := NoSnapshot().(ciStatus := status, workerAlive := Yes);
      Merges(TransitionItem(cfg, it, snap, now))
  {
    hide TransitionItem;
    var added := NewItem(w, 0);
    var it := added.(state := ReviewPending, session := added.session.(workspace := Workspace(1, false)),
                     review := added.review.(completed := true));
    var snap := NoSnapshot().(ciStatus := status, workerAlive := Yes);
    assert HumanComments([]) == [];
    WorkerMergesExactly(cfg, it, snap, now);
  }

  lemma OutsideMerge(cfg: Config, it: Item, snap: Snapshot, now: int)
    requires it.state.ReviewPending? && snap.prState.PrMerged?
    ensures var step := InterceptExternalMerge(RecordMergeCommit(it, snap), snap, now); !Merges(step) && AsksForMerge(cfg, step)
    ensures forall held :: !MergesOverWorker(cfg, held, snap, now)
  {
  }

  /** Rebase tracking and the merge commit do not matter. */
  lemma SameForSeen(cfg: Config, seen: Item, held: Item, snap: Snapshot, now: int)
    requires seen.review == held.review && seen.feedback == held.feedback && seen.workItem == held.workItem
    requires seen.lastTransition == held.lastTransition && seen.pr == held.pr && seen.state == held.state && seen.session == held.session
    ensures MergesOverWorker(cfg, seen, snap, now) <==> MergesOverWorker(cfg, held, snap, now)
  {
  }

  lemma IngestStands(it: Item, snap: Snapshot)
    ensures var held := IngestPendingFeedbackBatch(it, snap); held == it.(feedback := held.feedback)
  {
  }

  /** A merge the handler starts leaves no batch behind. */
  lemma MergingIsSettled(cfg: Config, it: Item, snap: Snapshot, now: int)
    requires it.state.ReviewPending?
    ensures var step := HandleReviewPending(cfg, it, snap, now);
      step.Step? && (AsksForMerge(cfg, step) && Merges(step) ==> !HasBatch(step.item))
  {
    hide HandleReviewPending, Count;
    HandleReviewPendingFacts(cfg, it, snap, now);
    var step := HandleReviewPending(cfg, it, snap, now);
    if AsksForMerge(cfg, step) && Merges(step) {
      var j :| 0 <= j < |step.actions| && step.actions[j].Merge? && step.actions[j].id == it.id;
      PollFacts.MergesCounted(cfg, it.id, step.actions, j);
    }
  }
}
