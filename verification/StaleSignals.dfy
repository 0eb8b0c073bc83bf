/**
 * The feedback-done signal of a worker: which polls act on it without clearing it, and what an uncleared
 * signal does to comments that come later (core/orchestrator.ts).
 */
module StaleSignals {
  import opened OrchestratorTypes
  import opened Lifecycle
  import opened LifecycleFacts
  import opened LifecycleSteps
  import opened Destinations
  import PollEffects
  import opened PollRequests

  /** The poll reads the signal as the worker's answer to the feedback it was given. */
  predicate ReadsDone(cfg: Config, it: Item, snap: Snapshot) {
    && it.state.ReviewPending? && !snap.prState.PrMerged? && !(it.review.completed && cfg.skipReview)
    && snap.feedbackDone && UnchangedSinceReview(it, snap) && !snap.noNewInfo && !snap.pushback.Ref?
  }

  predicate ClearsDone(step: Step, id: Id) {
    step.Step? && ClearFeedbackDone(id) in step.actions
  }

  /** Comments wait, or the item is relaunched for changes requested on GitHub or for failed checks. */
  predicate Overtaken(it: Item, snap: Snapshot) {
    && !snap.ciStatus.Pass? && !snap.ciStatus.InProgress?
    && (|| HasBatch(it)
        || (it.session.parked && (snap.reviewDecision.ChangesRequested? || (snap.ciStatus.Fail? && !snap.isMergeable.No?))))
  }

  lemma StillClears(step: Step, before: seq<Action>, id: Id)
    requires step.Step? && ClearFeedbackDone(id) in before
    ensures ClearsDone(step.After(before), id)
  {
    var j :| 0 <= j < |before| && before[j] == ClearFeedbackDone(id);
    assert (before + step.actions)[j] == ClearFeedbackDone(id);
  }

  lemma PassClears(cfg: Config, it: Item, snap: Snapshot, before: seq<Action>, now: int)
    requires it.state.ReviewPending? && ClearFeedbackDone(it.id) in before
    ensures ClearsDone(PassAndEvaluate(cfg, it, snap, before, now), it.id)
  {
    hide EvaluateMerge, Count;
    var passed := Enter(it, CiPassed, now);
    EvaluateMergeFacts(cfg, passed, snap, now);
    StillClears(EvaluateMerge(cfg, passed, snap, now), before, it.id);
  }

  lemma EvaluationClears(cfg: Config, it: Item, snap: Snapshot, before: seq<Action>, now: int)
    requires it.state.ReviewPending? && ClearFeedbackDone(it.id) in before
    ensures ClearsDone(EvaluateMerge(cfg, it, snap, now).After(before), it.id)
  {
    hide EvaluateMerge, Count;
    EvaluateMergeFacts(cfg, it, snap, now);
    StillClears(EvaluateMerge(cfg, it, snap, now), before, it.id);
  }

  lemma RecoveryClears(cfg: Config, it: Item, snap: Snapshot, before: seq<Action>, now: int)
    requires it.state.ReviewPending? && ClearFeedbackDone(it.id) in before
    ensures ClearsDone(NudgeOrRecoverReview(cfg, it, snap, before, now), it.id)
  {
    hide PassAndEvaluate, PlanRebaseConflictAction, InboxWaitStalled;
    var nudged := if snap.isMergeable.No? then PlanRebaseConflictAction(cfg, it, now) else Step(it, []);
    PlanKeeps(cfg, it, now);
    var all := before + nudged.actions;
    var j :| 0 <= j < |before| && before[j] == ClearFeedbackDone(it.id);
    assert all[j] == ClearFeedbackDone(it.id);
    PassClears(cfg, ForgetReview(nudged.item), snap, all, now);
    StillClears(nudged, before, it.id);
  }

  lemma FailureClearsExactly(cfg: Config, it: Item, snap: Snapshot, before: seq<Action>, now: int)
    requires it.state.ReviewPending? && ClearFeedbackDone(it.id) in before
    ensures ClearsDone(FailCiFromReview(cfg, it, snap, before, now), it.id) <==> !it.session.parked || snap.isMergeable.No?
  {
    hide PlanRebaseConflictAction, Enter, CountCiFailure;
    var failed := CountCiFailure(Enter(it, CiFailed, now));
    EnteredFailed(it, now);
    PlanKeeps(cfg, failed, now);
    StillClears(PlanRebaseConflictAction(cfg, failed, now), before, it.id);
    StillClears(EmitCiFailureNotification(failed, now), before, it.id);
    RespawnSays(failed, now);
  }

  lemma EnteredFailed(it: Item, now: int)
    ensures CountCiFailure(Enter(it, CiFailed, now)).state.CiFailed?
  {
  }

  lemma RespawnSays(it: Item, now: int)
    requires it.state.CiFailed?
    ensures RespawnCiFixWorker(it, now).Step? && RespawnCiFixWorker(it, now).actions == [Retry(it.id)]
  {
  }

  lemma SettledClearsExactly(cfg: Config, it: Item, snap: Snapshot, before: seq<Action>, now: int)
    requires it.state.ReviewPending? && !UnchangedSinceReview(it, snap) && FeedbackSettled(it) && ClearFeedbackDone(it.id) in before
    requires !snap.ciStatus.Pass? && !snap.ciStatus.InProgress?
    ensures ClearsDone(HandleSettledReview(cfg, it, snap, before, now), it.id) <==> !Overtaken(it, snap)
  {
    hide EvaluateMerge, FailCiFromReview, RespawnForFeedback, PassAndEvaluate, RestartCi, AwaitFix, NudgeOrRecoverReview, UnchangedSinceReview;
    RecoveryClears(cfg, it, snap, before, now);
    FailureClearsExactly(cfg, it, snap, before, now);
    FeedbackSays(it, if it.feedback.message.NoMessage? then GitHubRequestedChanges else it.feedback.message, now);
  }

  lemma FeedbackSays(it: Item, message: Message, now: int)
    requires it.state.ReviewPending?
    ensures RespawnForFeedback(it, message, now).Step? && RespawnForFeedback(it, message, now).actions == [Retry(it.id)]
  {
  }

  lemma DoneClearsExactly(cfg: Config, it: Item, snap: Snapshot, now: int)
    requires it.state.ReviewPending?
    ensures ClearsDone(HandleFeedbackDone(cfg, it, snap, now), it.id) <==> !Overtaken(it, snap)
  {
    hide HandleSettledReview, PassAndEvaluate, ContinuePendingFeedbackHandoff, ResolvePendingFeedbackBatch, Enter, ClearsDone;
    var done, signal := FinishFeedback(it), [ClearFeedbackDone(it.id)];
    DoneFields(it, snap, now);
    PassClears(cfg, done, snap, signal, now);
    RestartClears(done, snap, signal, now);
    ResolveShape(done, snap, now);
    if !snap.ciStatus.Pass? && !snap.ciStatus.InProgress? {
      if HasBatch(it) {
        ResolvedSays(done, ResolvePendingFeedbackBatch(done, snap, now), snap, now);
      } else {
        SettledClearsExactly(cfg, done, snap, signal, now);
      }
    }
  }

  lemma RestartClears(it: Item, snap: Snapshot, before: seq<Action>, now: int)
    requires it.state.ReviewPending? && ClearFeedbackDone(it.id) in before
    ensures ClearsDone(RestartCi(it, snap, before, now), it.id)
  {
  }

  lemma ResolvedSays(it: Item, step: Step, snap: Snapshot, now: int)
    requires step.Step? ==> Resolves(it, step, snap, now)
    ensures !ClearsDone(step, it.id)
  {
  }

  lemma DoneFields(it: Item, snap: Snapshot, now: int)
    ensures var done := FinishFeedback(it);
      && done.id == it.id && done.state == it.state && done.session == it.session && (HasBatch(done) <==> HasBatch(it))
      && !HandoffPending(done) && !UnchangedSinceReview(done, snap)
      && ContinuePendingFeedbackHandoff(done, snap, now).Declined? && (Overtaken(done, snap) <==> Overtaken(it, snap))
  {
  }

  // ---- A whole poll -----------------------------------------------------------------------

  /** The handler reaches the signal. */
  lemma ReadsReach(cfg: Config, it: Item, snap: Snapshot, now: int)
    requires ReadsDone(cfg, it, snap)
    ensures HandleReviewPending(cfg, it, snap, now) == HandleFeedbackDone(cfg, it, snap, now)
  {
    hide HandleFeedbackDone, HandleAnsweredReview, PassAndEvaluate;
  }

  lemma SeenReads(cfg: Config, it: Item, snap: Snapshot, now: int)
    requires ReadsDone(cfg, it, snap)
    ensures var seen, held := Seen(it, snap, now), IngestPendingFeedbackBatch(it, snap);
      && ReadsDone(cfg, seen, snap) && !ExternallyMerged(it, snap) && seen.id == it.id && seen.state == it.state && seen.session == it.session
      && seen.feedback == held.feedback && (Overtaken(seen, snap) <==> Overtaken(held, snap))
      && (seen.review == it.review && held.review == it.review)
  {
    hide IngestPendingFeedbackBatch;
    SeenStands(it, snap, now);
    IngestSame(it, snap);
  }

  lemma IngestSame(it: Item, snap: Snapshot)
    ensures var held := IngestPendingFeedbackBatch(it, snap); held == it.(feedback := held.feedback)
  {
  }

  lemma TailClearsNothing(body: Step, snap: Snapshot, now: int, id: Id)
    requires body.Step? && ParkedOk(body.item)
    ensures var step := Tail(body.item, snap, now).After(body.actions);
      step.Step? ==> (ClearsDone(step, id) <==> ClearsDone(body, id))
  {
    hide ResolvePendingFeedbackBatch;
    ResolveShape(body.item, snap, now);
    var tail := Tail(body.item, snap, now);
    if tail.Step? {
      assert ClearFeedbackDone(id) in body.actions + tail.actions <==> ClearFeedbackDone(id) in body.actions || ClearFeedbackDone(id) in tail.actions;
    }
  }

  /**
   * Main result: a poll that reads the signal clears it exactly unless CI neither passes nor runs and
   * comments wait, or the item is parked and relaunched for requested changes or failed checks.
   */
  lemma ClearsDoneExactly(cfg: Config, it: Item, snap: Snapshot, now: int)
    requires ReadsDone(cfg, it, snap)
    ensures var step := TransitionItem(cfg, it, snap, now);
      step.Step? && (ClearsDone(step, it.id) <==> !Overtaken(IngestPendingFeedbackBatch(it, snap), snap))
  {
    hide Seen, IngestPendingFeedbackBatch, HandleReviewPending, HandleFeedbackDone, Tail, ClearsDone, Overtaken, Sound;
    SeenReads(cfg, it, snap, now);
    var seen := Seen(it, snap, now);
    ReadsReach(cfg, seen, snap, now);
    DoneClearsExactly(cfg, seen, snap, now);
    ThrowsExactly(cfg, it, snap, now);
    PollEffects.BodyParks(cfg, it, snap, now);
    TailClearsNothing(Body(cfg, it, snap, now), snap, now, it.id);
  }

  // ---- What an uncleared signal does ------------------------------------------------------

  /** The worker is there, and new comments go out to it in the poll that reads its signal. */
  predicate CommentsArrive(it: Item, snap: Snapshot, now: int) {
    && BatchDue(it, now) && !it.session.parked && it.session.workspace.Workspace? && snap.workerAlive.Yes?
    && !snap.ciStatus.Pass? && !snap.ciStatus.InProgress?
  }

  /** The comments are the message the worker is to answer, about the head as it is. */
  predicate Awaits(it: Item, comments: set<Comment>, snap: Snapshot) {
    && it.state.ReviewPending? && !it.session.parked && !it.review.completed && it.review.lastReviewed == snap.headSha
    && it.feedback == Feedback(true, BatchFeedback(comments), true, NoBatch)
  }

  lemma DeliversOverSignal(cfg: Config, it: Item, snap: Snapshot, now: int)
    requires it.state.ReviewPending? && CommentsArrive(it, snap, now) && snap.headSha.Ref?
    ensures var step := HandleFeedbackDone(cfg, it, snap, now);
      && step.Step? && step.item.id == it.id && Awaits(step.item, it.feedback.batch.comments, snap)
      && step.actions == [SendMessage(it.id, BatchFeedback(it.feedback.batch.comments))]
  {
    hide HandleSettledReview, PassAndEvaluate;
  }

  lemma NoTail(step: Step, snap: Snapshot, now: int)
    requires step.Step? && step.item.feedback.batch.NoBatch?
    ensures Tail(step.item, snap, now).After(step.actions) == step
  {
    assert step.actions + [] == step.actions;
  }

  lemma FirstPoll(cfg: Config, it: Item, snap: Snapshot, now: int)
    requires ReadsDone(cfg, it, snap) && CommentsArrive(IngestPendingFeedbackBatch(it, snap), snap, now)
    ensures var step := TransitionItem(cfg, it, snap, now);
      var comments := IngestPendingFeedbackBatch(it, snap).feedback.batch.comments;
      && step.Step? && step.item.id == it.id && Awaits(step.item, comments, snap)
      && step.actions == [SendMessage(it.id, BatchFeedback(comments))]
  {
    hide Seen, IngestPendingFeedbackBatch, HandleReviewPending, HandleFeedbackDone, Tail;
    SeenReads(cfg, it, snap, now);
    IngestSame(it, snap);
    var seen := Seen(it, snap, now);
    ReadsReach(cfg, seen, snap, now);
    DeliversOverSignal(cfg, seen, snap, now);
    NoTail(Body(cfg, it, snap, now), snap, now);
  }

  /** Nobody gave the item a message in this step. */
  predicate Unasked(step: Step) {
    step.Step? && !step.item.feedback.needsResponse && step.item.feedback.message.NoMessage? && step.item.feedback.batch.NoBatch?
  }

  lemma AnswersUnasked(cfg: Config, it: Item, snap: Snapshot, now: int)
    requires it.state.ReviewPending? && !it.session.parked && it.feedback.batch.NoBatch? && !snap.ciStatus.Pass? && !snap.ciStatus.InProgress?
    ensures Unasked(HandleFeedbackDone(cfg, it, snap, now))
  {
    hide HandleSettledReview, ContinuePendingFeedbackHandoff, ResolvePendingFeedbackBatch;
    var done, signal := FinishFeedback(it), [ClearFeedbackDone(it.id)];
    DoneFields(it, snap, now);
    SettledUnasked(cfg, done, snap, signal, now);
    NoFeedbackDeclines(done, snap, now);
  }

  lemma SettledUnasked(cfg: Config, it: Item, snap: Snapshot, before: seq<Action>, now: int)
    requires it.state.ReviewPending? && !it.session.parked && !UnchangedSinceReview(it, snap)
    requires !it.feedback.needsResponse && it.feedback.message.NoMessage? && it.feedback.batch.NoBatch?
    requires !snap.ciStatus.Pass? && !snap.ciStatus.InProgress?
    ensures Unasked(HandleSettledReview(cfg, it, snap, before, now))
  {
    hide EvaluateMerge, RespawnForFeedback, PassAndEvaluate, RestartCi, AwaitFix, NudgeOrRecoverReview, UnchangedSinceReview, RespawnCiFixWorker,
         PlanRebaseConflictAction;
    RecoveryUnasked(cfg, it, snap, before, now);
    PlanKeeps(cfg, CountCiFailure(Enter(it, CiFailed, now)), now);
  }

  lemma RecoveryUnasked(cfg: Config, it: Item, snap: Snapshot, before: seq<Action>, now: int)
    requires it.state.ReviewPending? && !it.feedback.needsResponse && it.feedback.message.NoMessage? && it.feedback.batch.NoBatch?
    ensures Unasked(NudgeOrRecoverReview(cfg, it, snap, before, now))
  {
    hide PlanRebaseConflictAction, EvaluateMerge, InboxWaitStalled;
    var nudged := if snap.isMergeable.No? then PlanRebaseConflictAction(cfg, it, now) else Step(it, []);
    PlanKeeps(cfg, it, now);
    EvaluationUnasked(cfg, Enter(ForgetReview(nudged.item), CiPassed, now), snap, now);
  }

  lemma EvaluationUnasked(cfg: Config, it: Item, snap: Snapshot, now: int)
    requires it.state.CiPassed? && it.review.lastReviewed.Absent?
    requires !it.feedback.needsResponse && it.feedback.message.NoMessage? && it.feedback.batch.NoBatch?
    ensures Unasked(EvaluateMerge(cfg, it, snap, now))
  {
    NoFeedbackDeclines(it, snap, now);
  }

  lemma SecondPoll(cfg: Config, it: Item, comments: set<Comment>, snap: Snapshot, now: int)
    requires Awaits(it, comments, snap) && snap.headSha.Ref? && snap.newComments == [] && snap.feedbackDone && !snap.noNewInfo && !snap.pushback.Ref?
    requires !snap.prState.PrMerged? && !snap.ciStatus.Pass? && !snap.ciStatus.InProgress?
    ensures Unasked(TransitionItem(cfg, it, snap, now)) && ClearsDone(TransitionItem(cfg, it, snap, now), it.id)
  {
    hide Seen, IngestPendingFeedbackBatch, HandleReviewPending, HandleFeedbackDone, Tail, Overtaken, ClearsDone;
    NoneArrive(it, snap);
    SeenReads(cfg, it, snap, now);
    var seen := Seen(it, snap, now);
    ReadsReach(cfg, seen, snap, now);
    AnswersUnasked(cfg, seen, snap, now);
    NoTail(Body(cfg, it, snap, now), snap, now);
    ClearsDoneExactly(cfg, it, snap, now);
    NotOvertaken(IngestPendingFeedbackBatch(it, snap), snap);
  }

  lemma NoneArrive(it: Item, snap: Snapshot)
    requires snap.newComments == []
    ensures IngestPendingFeedbackBatch(it, snap) == it
  {
    assert HumanComments([]) == [];
  }

  lemma NotOvertaken(it: Item, snap: Snapshot)
    requires it.feedback.batch.NoBatch? && !it.session.parked
    ensures !Overtaken(it, snap)
  {
  }

  /**
   * Main result: whenever comments go out to the worker in a poll that reads its signal while CI neither
   * passes nor runs, the signal stays, and the next poll of the same head takes the new comments as
   * answered by it, whatever the worker has made of them.
   */
  lemma AnsweredUnread(cfg: Config, it: Item, snap: Snapshot, now: int, later: int)
    requires ReadsDone(cfg, it, snap) && CommentsArrive(IngestPendingFeedbackBatch(it, snap), snap, now)
    ensures var one := TransitionItem(cfg, it, snap, now);
      && one.Step? && HandoffPending(one.item) && !ClearsDone(one, it.id)
      && var two := TransitionItem(cfg, one.item, snap.(newComments := []), later);
      Unasked(two) && ClearsDone(two, it.id)
  {
    hide TransitionItem, IngestPendingFeedbackBatch;
    FirstPoll(cfg, it, snap, now);
    var held := IngestPendingFeedbackBatch(it, snap);
    SecondPoll(cfg, TransitionItem(cfg, it, snap, now).item, held.feedback.batch.comments, snap.(newComments := []), later);
  }
}
