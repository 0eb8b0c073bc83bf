/**
 * When human feedback reaches a worker, against what the source's comments promise: feedback during
 * a review, feedback that arrives while an older message waits, the parking of a settled item, and
 * the merge of an item whose worker still runs.
 */
module FeedbackTiming {
  import opened OrchestratorTypes
  import opened OrchestratorGuards
  import opened Lifecycle
  import opened LifecycleFacts
  import opened LifecycleSteps
  import opened Poll

  // ---- Feedback during a review -----------------------------------------------------------

  /** The reviewer is at work: no verdict, no drain, no merge from outside, and it is not dead. */
  predicate ReviewGoesOn(cfg: Config, it: Item, snap: Snapshot) {
    && it.state.Reviewing? && snap.reviewVerdict.NoVerdict? && !snap.prState.PrMerged?
    && !(it.review.completed && cfg.skipReview)
    && !(it.review.workspace.Workspace? && LivenessOf(it, snap).Dead?)
  }

  /** What a delivered batch leaves of the feedback fields. */
  predicate Delivered(batch: Batch, step: Step)
    requires batch.Batch? && step.Step?
  {
    && !HasBatch(step.item)
    && step.item.feedback.needsResponse && step.item.feedback.message == BatchFeedback(batch.comments)
    && SendMessage(step.item.id, BatchFeedback(batch.comments)) in step.actions
  }

  /** A batch that falls due outside review-pending is delivered by the last step of transitionItem. */
  lemma TailDelivers(it: Item, snap: Snapshot, now: int)
    requires !it.session.parked && !it.state.ReviewPending? && !it.state.CiPassed? && !it.state.Merging?
    ensures var step := Tail(it, snap, now);
      && step.Step? && step.item.state == it.state && step.item.id == it.id
      && (if BatchDue(it, now) then Delivered(it.feedback.batch, step) else step == Step(it, []))
  {
  }

  lemma TailIsResolve(it: Item, snap: Snapshot, now: int)
    ensures Tail(it, snap, now) == ResolvePendingFeedbackBatch(it, snap, now).OrStay(it)
  {
  }

  lemma RunningReviewLeaves(cfg: Config, it: Item, snap: Snapshot, now: int)
    requires ReviewGoesOn(cfg, it, snap) && !it.session.parked
    ensures var step := HandleReviewRunning(cfg, it, snap, now);
      && step.Step? && step.item.id == it.id && step.item.feedback == it.feedback && !step.item.session.parked
      && (if snap.ciStatus.Fail? then step.item.state.CiFailed?
          else if snap.isMergeable.No? then step.item.state.CiPending?
          else step.item.state.Reviewing? && step.actions == [])
  {
    hide PassAndEvaluate;
  }

  /**
   * Main result: comments are said to wait for the verdict. While the review goes on they are
   * delivered before it exactly when their batch falls due, whether the item stays in review or
   * leaves it because of CI or a conflict.
   */
  lemma CommentsWaitForVerdictExactly(cfg: Config, it: Item, snap: Snapshot, now: int)
    requires ParkedOk(it) && ReviewGoesOn(cfg, it, snap)
    ensures var step := TransitionItem(cfg, it, snap, now);
      var held := IngestPendingFeedbackBatch(it, snap);
      && step.Step? && step.item.id == it.id
      && (step.item.state.Reviewing? <==> !snap.ciStatus.Fail? && !snap.isMergeable.No?)
      && (HasBatch(step.item) <==> HasBatch(held) && !BatchDue(held, now))
      && (if BatchDue(held, now) then Delivered(held.feedback.batch, step) else step.item.feedback == held.feedback)
  {
    hide Seen, HandleReviewRunning, Delivered, Tail, IngestPendingFeedbackBatch;
    SeenStands(it, snap, now);
    var seen := Seen(it, snap, now);
    RunningReviewLeaves(cfg, seen, snap, now);
    var body := Body(cfg, it, snap, now);
    TailDelivers(body.item, snap, now);
    if BatchDue(body.item, now) {
      StillDelivered(body.item.feedback.batch, Tail(body.item, snap, now), body.actions);
    }
  }

  lemma StillDelivered(batch: Batch, step: Step, before: seq<Action>)
    requires batch.Batch? && step.Step? && Delivered(batch, step)
    ensures Delivered(batch, step.After(before))
  {
  }

  /** One comment, a minute old, in the middle of a review: it does not wait. */
  lemma CommentInterruptsReview(cfg: Config, w: WorkItem)
    ensures var it := NewItem(w, 0).(state := Reviewing);
      var snap := NoSnapshot().(newComments := [Comment(1, 0, false)]);
      var step := TransitionItem(cfg, it, snap, FEEDBACK_DEBOUNCE_MS);
      && ReviewGoesOn(cfg, it, snap) && step.Step? && step.item.state.Reviewing?
      && SendMessage(w.id, BatchFeedback({Comment(1, 0, false)})) in step.actions
  {
    hide TransitionItem;
    var it := NewItem(w, 0).(state := Reviewing);
    var c := Comment(1, 0, false);
    var snap := NoSnapshot().(newComments := [c]);
    CommentsWaitForVerdictExactly(cfg, it, snap, FEEDBACK_DEBOUNCE_MS);
    OneComment(it, c);
  }

  lemma OneComment(it: Item, c: Comment)
    requires it.feedback.batch.NoBatch? && !c.byAgent
    ensures IngestPendingFeedbackBatch(it, NoSnapshot().(newComments := [c])).feedback.batch
         == Batch({c}, c.createdAt + FEEDBACK_DEBOUNCE_MS)
  {
    assert HumanComments([c]) == [c] by {
      assert [c][1..] == [];
    }
    assert (set x | x in [c]) == {c};
  }

  lemma SameComments(it: Item, a: Snapshot, b: Snapshot)
    requires a.newComments == b.newComments
    ensures IngestPendingFeedbackBatch(it, a) == IngestPendingFeedbackBatch(it, b)
  {
  }

  // ---- The batch --------------------------------------------------------------------------

  /** The comments that wait to go out together. */
  function Waiting(it: Item): set<Comment> {
    if it.feedback.batch.Batch? then it.feedback.batch.comments else {}
  }

  predicate FromHuman(c: Comment, snap: Snapshot) {
    c in snap.newComments && !c.byAgent
  }

  /** The batch is due a minute after the latest comment, never earlier than it was. */
  predicate DueAfter(it: Item, held: Item, snap: Snapshot)
    requires held.feedback.batch.Batch?
  {
    var deadline := held.feedback.batch.deadline;
    && (forall c :: c in snap.newComments && FromHuman(c, snap) ==> deadline >= c.createdAt + 60_000)
    && (it.feedback.batch.Batch? ==> deadline >= it.feedback.batch.deadline)
    && ((it.feedback.batch.Batch? && deadline == it.feedback.batch.deadline)
        || exists c :: c in snap.newComments && FromHuman(c, snap) && deadline == c.createdAt + 60_000)
  }

  /**
   * Main result: what a poll makes of new comments. Exactly those of humans join the ones that wait,
   * each once, and the batch falls due a minute after its latest comment.
   */
  lemma IngestsExactly(it: Item, snap: Snapshot)
    ensures var held := IngestPendingFeedbackBatch(it, snap);
      && held == it.(feedback := it.feedback.(batch := held.feedback.batch))
      && (forall c :: c in Waiting(held) <==> c in Waiting(it) || FromHuman(c, snap))
      && ((forall c :: c in snap.newComments ==> !FromHuman(c, snap)) ==> held == it)
      && (held != it ==> held.feedback.batch.Batch? && DueAfter(it, held, snap))
  {
    var humans := HumanComments(snap.newComments);
    assert forall c :: c in humans <==> FromHuman(c, snap);
    if humans != [] {
      LatestWithMinute(humans);
    } else {
      assert forall c :: !FromHuman(c, snap);
    }
  }

  lemma LatestWithMinute(comments: seq<Comment>)
    requires comments != []
    ensures var due := LatestCreated(comments) + FEEDBACK_DEBOUNCE_MS;
      && (forall c :: c in comments ==> due >= c.createdAt + 60_000)
      && exists c :: c in comments && due == c.createdAt + 60_000
  {
    var latest := LatestCreated(comments);
    assert exists c :: c in comments && c.createdAt == latest;
    var c :| c in comments && c.createdAt == latest;
  }

  // ---- Feedback that arrives while an older message waits ----------------------------------

  /** The batch and the waiting message say the same. */
  predicate SameMessage(it: Item) {
    it.feedback.batch.Batch? && it.feedback.message == BatchFeedback(it.feedback.batch.comments)
  }

  /**
   * The last step of transitionItem keeps the waiting message exactly when no batch is due, the
   * delivery waits for the worker, or the batch says the same.
   */
  lemma TailKeepsMessageExactly(it: Item, snap: Snapshot, now: int)
    requires !ParkedStuck(it) && ParkedOk(it)
    ensures var step := Tail(it, snap, now);
      && step.Step?
      && (step.item.feedback.message == it.feedback.message <==>
            !BatchDue(it, now) || FeedbackBatchDeliveryMode(it, snap).Wait? || SameMessage(it))
  {
  }

  /** No signal of the worker and no drain comes before the feedback handoff. */
  predicate HandsOffFirst(cfg: Config, it: Item, snap: Snapshot) {
    || it.state.Merging?
    || (&& it.state.ReviewPending?
        && !(it.review.completed && cfg.skipReview)
        && !((snap.noNewInfo || snap.pushback.Ref? || snap.feedbackDone) && UnchangedSinceReview(it, snap)))
  }

  /** Nobody can take the waiting message, so its handoff relaunches the worker. */
  predicate Relaunches(it: Item, snap: Snapshot) {
    it.session.parked || it.session.workspace.NoWorkspace? || LivenessOf(it, snap).Dead?
  }

  lemma HandoffRelaunches(it: Item, snap: Snapshot, now: int)
    requires HandoffPending(it) && Relaunches(it, snap) && (it.state.ReviewPending? || it.state.Merging?)
    requires ParkedOk(it)
    ensures var step := ContinuePendingFeedbackHandoff(it, snap, now);
      && step.Step? && step.item.state.Ready? && !step.item.session.parked
      && step.item.feedback == it.feedback.(needsResponse := true, armed := false)
  {
  }

  lemma HandsOff(cfg: Config, it: Item, snap: Snapshot, now: int)
    requires HandsOffFirst(cfg, it, snap) && HandoffPending(it) && ContinuePendingFeedbackHandoff(it, snap, now).Step?
    ensures Handle(cfg, it, snap, now) == ContinuePendingFeedbackHandoff(it, snap, now)
  {
    hide ContinuePendingFeedbackHandoff, PassAndEvaluate, ResumeCi, RestartCi;
  }

  /**
   * Main result: a message that waits for a worker survives the poll that relaunches the worker for
   * it exactly when no batch of comments falls due in that poll, or the batch says the same.
   */
  lemma RelaunchKeepsMessageExactly(cfg: Config, it: Item, snap: Snapshot, now: int)
    requires ParkedOk(it) && !snap.prState.PrMerged?
    requires HandsOffFirst(cfg, it, snap) && HandoffPending(it) && Relaunches(it, snap)
    ensures var step := TransitionItem(cfg, it, snap, now);
      var held := IngestPendingFeedbackBatch(it, snap);
      && step.Step? && step.item.state.Ready?
      && (step.item.feedback.message == it.feedback.message <==> !BatchDue(held, now) || SameMessage(held))
  {
    hide Seen, Handle, Tail, IngestPendingFeedbackBatch, ContinuePendingFeedbackHandoff;
    SeenStands(it, snap, now);
    IngestKeepsMessage(it, snap);
    var seen := Seen(it, snap, now);
    HandoffRelaunches(seen, snap, now);
    HandsOff(cfg, seen, snap, now);
    var body := Body(cfg, it, snap, now);
    TailKeepsMessageExactly(body.item, snap, now);
    TailDelivers(body.item, snap, now);
  }

  lemma IngestKeepsMessage(it: Item, snap: Snapshot)
    ensures var held := IngestPendingFeedbackBatch(it, snap);
      held.feedback == it.feedback.(batch := held.feedback.batch)
  {
  }

  /** The review asked for changes, and a comment falls due in the poll that relaunches the worker. */
  lemma ReviewFeedbackIsLost(cfg: Config, w: WorkItem)
    ensures var it := NewItem(w, 0).(state := ReviewPending, feedback := Feedback(true, ReviewFeedback(1), false, NoBatch));
      var snap := NoSnapshot().(newComments := [Comment(1, 0, false)]);
      var step := TransitionItem(cfg, it, snap, FEEDBACK_DEBOUNCE_MS);
      step.Step? && step.item.state.Ready? && step.item.feedback.message != ReviewFeedback(1)
  {
    hide TransitionItem;
    var it := NewItem(w, 0).(state := ReviewPending, feedback := Feedback(true, ReviewFeedback(1), false, NoBatch));
    var c := Comment(1, 0, false);
    var snap := NoSnapshot().(newComments := [c]);
    RelaunchKeepsMessageExactly(cfg, it, snap, FEEDBACK_DEBOUNCE_MS);
    OneComment(it, c);
    assert c in {c};
  }

  // ---- Parking a settled item -------------------------------------------------------------

  /**
   * Main result: a no-new-info signal that closes a live session is to park it. It leaves the
   * session parked exactly when the item was review-pending already, and had a session to park.
   */
  lemma SettledParksExactly(it: Item, snap: Snapshot, now: int)
    requires TryHandleNoNewInfo(it, snap, now).Step?
    ensures var step := TryHandleNoNewInfo(it, snap, now);
      && step.item.state.ReviewPending?
      && (step.item.session.parked <==>
            it.state.ReviewPending? && (it.session.parked || it.session.workspace.Workspace?))
      && (WorkspaceClose(it.id) in step.actions <==> it.session.workspace.Workspace? && !it.session.parked)
  {
  }

  /** The same over a whole poll from ci-passed: the session is closed and not parked. */
  lemma SettlesUnparked(cfg: Config, it: Item, snap: Snapshot, now: int)
    requires it.state.CiPassed? && !it.session.parked && it.session.workspace.Workspace?
    requires snap.noNewInfo && UnchangedSinceReview(it, snap)
    requires !snap.prState.PrMerged? && !snap.ciStatus.Fail? && !snap.ciStatus.InProgress? && !snap.isMergeable.No?
    ensures var step := TransitionItem(cfg, it, snap, now);
      && step.Step? && step.item.state.ReviewPending? && !step.item.session.parked
      && WorkspaceClose(it.id) in step.actions
  {
    hide Seen, ContinuePendingFeedbackHandoff, ResolvePendingFeedbackBatch, TryHandleNoNewInfo;
    SeenStands(it, snap, now);
    var seen := Seen(it, snap, now);
    SettleLeaves(seen, snap, now);
    SettledParksExactly(seen, snap, now);
    var body := Body(cfg, it, snap, now);
    assert body == TryHandleNoNewInfo(seen, snap, now);
    NoBatchNoTail(body.item, snap, now);
  }

  lemma SettleLeaves(it: Item, snap: Snapshot, now: int)
    requires it.state.CiPassed? && snap.noNewInfo && UnchangedSinceReview(it, snap)
    ensures var step := TryHandleNoNewInfo(it, snap, now); step.Step? && step.item.feedback.batch.NoBatch?
  {
  }

  lemma NoBatchNoTail(it: Item, snap: Snapshot, now: int)
    requires !HasBatch(it)
    ensures Tail(it, snap, now) == Step(it, [])
  {
  }

  // ---- Merging over a live workspace ------------------------------------------------------

  predicate Merges(step: Step) {
    step.Step? && step.item.state.Merging?
  }

  /** An item a re-evaluation looks at, with no signal and no feedback on its way. */
  predicate ReadyToReevaluate(it: Item, snap: Snapshot) {
    && it.state.ReviewPending? && snap.ciStatus.Pass? && FeedbackSettled(it)
    && !(snap.noNewInfo && UnchangedSinceReview(it, snap))
  }

  /**
   * Main result: the forced re-evaluation merges whatever the workspace is, exactly when the review
   * is complete or skipped and no human is needed.
   */
  lemma ReevaluationMergesExactly(cfg: Config, it: Item, snap: Snapshot, now: int)
    requires ReadyToReevaluate(it, snap)
    ensures var step := Reevaluate(cfg, it, snap, now);
      && step.Step?
      && (Merges(step) <==> (it.review.completed || cfg.skipReview) && !NeedsHuman(cfg, it, snap))
      && (Merges(step) <==> step.actions == [Merge(it.id, it.pr.number, cfg.mergeStrategy.Bypass?)])
  {
  }

  /** The regular handler waits for the worker of the same item to leave. */
  lemma WorkspaceHoldsMerge(cfg: Config, it: Item, snap: Snapshot, before: seq<Action>, now: int)
    requires MergeAllowed(cfg, it, snap) && it.session.workspace.Workspace?
    ensures HandleSettledReview(cfg, it, snap, before, now) == Step(it, before)
  {
  }

  /**
   * Both over one poll: with a worker still in its workspace the item stays review-pending and asks
   * for nothing, and a strategy change before the poll makes the same poll merge it, unless a human
   * is needed.
   */
  lemma StrategyChangeMergesOverWorker(cfg: Config, it: Item, snap: Snapshot, now: int)
    requires ReadyToReevaluate(it, snap) && snap.newComments == [] && !snap.prState.PrMerged?
    requires !((snap.pushback.Ref? || snap.feedbackDone) && UnchangedSinceReview(it, snap))
    requires it.session.workspace.Workspace? && it.review.completed && !cfg.skipReview && MergeAllowed(cfg, it, snap)
    ensures var step := TransitionItem(cfg, it, snap, now);
      && step.Step? && step.item.state.ReviewPending? && step.actions == []
      && (Merges(Reevaluate(cfg, step.item, snap, now)) <==> !NeedsHuman(cfg, it, snap))
  {
    hide Seen, HandleSettledReview, Reevaluate;
    SeenStands(it, snap, now);
    var seen := Seen(it, snap, now);
    WorkspaceHoldsMerge(cfg, seen, snap, [], now);
    assert Body(cfg, it, snap, now) == HandleSettledReview(cfg, seen, snap, [], now);
    NoBatchNoTail(seen, snap, now);
    ReevaluationMergesExactly(cfg, seen, snap, now);
  }
}
