/**
 * Exactly what one poll records when it hands waiting feedback to a worker, delivers comments that fall
 * due, or discards spurious feedback (core/orchestrator.ts).
 */
module Handoffs {
  import opened OrchestratorTypes
  import opened OrchestratorGuards
  import opened Lifecycle
  import opened LifecycleFacts
  import opened LifecycleSteps
  import opened FeedbackTiming

  /** The commit the next review starts from: the head, when the poll saw one. */
  predicate StampsHead(step: Step, it: Item, snap: Snapshot)
    requires step.Step?
  {
    step.item.review.lastReviewed == if snap.headSha.Ref? then snap.headSha else it.review.lastReviewed
  }

  // ---- Handing a message over -------------------------------------------------------------

  /** The message stays on record; a live worker gets it, and an item about to merge is held for review. */
  predicate HandsOver(it: Item, step: Step, snap: Snapshot) {
    && step.Step? && StampsHead(step, it, snap)
    && step.item.feedback.needsResponse && step.item.feedback.message == it.feedback.message
    && (if Relaunches(it, snap) then
          step.item.state.Ready? && !step.item.review.completed && !step.item.feedback.armed
        else
          && step.item.state.ReviewPending?
          && step.item.review.completed == (it.review.completed && !it.state.Merging?)
          && step.item.feedback.armed == (it.feedback.armed || LivenessOf(it, snap).Alive?))
    && (SendMessage(it.id, it.feedback.message) in step.actions <==> !Relaunches(it, snap) && LivenessOf(it, snap).Alive?)
  }

  lemma Held(it: Item, snap: Snapshot, now: int)
    requires it.state.ReviewPending? || (it.state.Merging? && !it.session.parked)
    ensures var held := HoldForHandoff(it, snap, now);
      && held.Moved? && held.item.id == it.id && held.item.state.ReviewPending? && held.item.feedback == it.feedback
      && held.item.session.parked == it.session.parked && held.item.session.workspace == it.session.workspace
      && held.item.session.notAliveCount == it.session.notAliveCount
      && held.item.review.lastReviewed == (if snap.headSha.Ref? then snap.headSha else it.review.lastReviewed)
      && held.item.review.completed == (it.review.completed && !it.state.Merging?)
  {
  }

  lemma Relaunched(it: Item, message: Message, now: int)
    requires it.state.ReviewPending?
    ensures var step := RespawnForFeedback(it, message, now);
      && step.Step? && step.item.state.Ready? && step.actions == [Retry(it.id)] && !step.item.review.completed
      && step.item.review.lastReviewed == it.review.lastReviewed
      && step.item.feedback == it.feedback.(needsResponse := true, message := message, armed := false)
  {
  }

  lemma ContinueHandsOver(it: Item, snap: Snapshot, now: int)
    requires HandoffPending(it) && ParkedOk(it) && (it.state.ReviewPending? || it.state.Merging?)
    ensures HandsOver(it, ContinuePendingFeedbackHandoff(it, snap, now), snap)
    ensures var step := ContinuePendingFeedbackHandoff(it, snap, now);
      step.Step? && step.item.feedback.batch == it.feedback.batch
  {
    hide HoldForHandoff, RespawnForFeedback;
    Held(it, snap, now);
    var held := HoldForHandoff(it, snap, now).item;
    Relaunched(held, it.feedback.message, now);
    Relaunched(CountLiveness(held, snap), it.feedback.message, now);
  }

  lemma SeenHandsOver(it: Item, seen: Item, step: Step, snap: Snapshot)
    requires seen == it.(rebase := seen.rebase, feedback := seen.feedback, repair := seen.repair)
    requires seen.feedback == it.feedback.(batch := seen.feedback.batch) && HandsOver(seen, step, snap)
    ensures HandsOver(it, step, snap)
  {
  }

  /** Main result: the handoff over a whole poll in which no comments fall due. */
  lemma HandoffExactly(cfg: Config, it: Item, snap: Snapshot, now: int)
    requires ParkedOk(it) && !snap.prState.PrMerged? && HandsOffFirst(cfg, it, snap) && HandoffPending(it)
    requires !BatchDue(IngestPendingFeedbackBatch(it, snap), now)
    ensures HandsOver(it, TransitionItem(cfg, it, snap, now), snap)
  {
    hide Seen, Handle, IngestPendingFeedbackBatch, ContinuePendingFeedbackHandoff, HandsOver;
    SeenStands(it, snap, now);
    IngestKeepsMessage(it, snap);
    var seen := Seen(it, snap, now);
    ContinueHandsOver(seen, snap, now);
    HandsOff(cfg, seen, snap, now);
    SeenHandsOver(it, seen, ContinuePendingFeedbackHandoff(seen, snap, now), snap);
    var body := Body(cfg, it, snap, now);
    NotDueNoTail(body.item, snap, now);
    assert body.actions + [] == body.actions;
  }

  lemma NotDueNoTail(it: Item, snap: Snapshot, now: int)
    requires !BatchDue(it, now)
    ensures Tail(it, snap, now) == Step(it, [])
  {
  }

  // ---- Delivering comments to an item that merges -----------------------------------------

  /** Due comments take an approved item out of the merge, and are armed only for a live worker. */
  predicate Interrupts(it: Item, batch: Batch, step: Step, snap: Snapshot)
    requires batch.Batch?
  {
    && step.Step? && StampsHead(step, it, snap) && !step.item.review.completed
    && step.item.state == (if it.review.completed then ReviewPending else Merging)
    && step.item.feedback
       == Feedback(true, BatchFeedback(batch.comments),
                   it.session.workspace.Workspace? && LivenessOf(it, snap).Alive?, NoBatch)
    && step.actions == [SendMessage(it.id, BatchFeedback(batch.comments))]
  }

  lemma MergingInterrupts(cfg: Config, it: Item, snap: Snapshot, now: int)
    requires it.state.Merging? && ParkedOk(it) && !HandoffPending(it) && BatchDue(it, now)
    ensures Interrupts(it, it.feedback.batch, HandleMerging(cfg, it, snap, now), snap)
  {
  }

  lemma SeenInterrupts(it: Item, seen: Item, step: Step, snap: Snapshot)
    requires seen == it.(rebase := seen.rebase, feedback := seen.feedback, repair := seen.repair)
    requires seen.feedback.batch.Batch? && Interrupts(seen, seen.feedback.batch, step, snap)
    ensures Interrupts(it, seen.feedback.batch, step, snap)
  {
  }

  lemma InterruptsMergeExactly(cfg: Config, it: Item, snap: Snapshot, now: int)
    requires it.state.Merging? && ParkedOk(it) && !snap.prState.PrMerged? && !HandoffPending(it)
    requires BatchDue(IngestPendingFeedbackBatch(it, snap), now)
    ensures Interrupts(it, IngestPendingFeedbackBatch(it, snap).feedback.batch, TransitionItem(cfg, it, snap, now), snap)
  {
    hide Seen, IngestPendingFeedbackBatch, HandleMerging, Tail;
    SeenStands(it, snap, now);
    IngestKeepsMessage(it, snap);
    var seen := Seen(it, snap, now);
    MergingInterrupts(cfg, seen, snap, now);
    SeenInterrupts(it, seen, HandleMerging(cfg, seen, snap, now), snap);
    NoBatchNoTail(Body(cfg, it, snap, now).item, snap, now);
  }

  // ---- Discarding spurious feedback -------------------------------------------------------

  /** A state in which the poll acts on a no-new-info signal for unchanged code. */
  predicate ReadsNoNewInfo(cfg: Config, it: Item, snap: Snapshot) {
    && snap.noNewInfo && it.review.lastReviewed.Ref? && snap.headSha == it.review.lastReviewed && !snap.prState.PrMerged?
    && (|| (it.state.ReviewPending? && !(it.review.completed && cfg.skipReview))
        || (it.state.CiPassed? && !snap.ciStatus.Fail? && !snap.ciStatus.InProgress? && !snap.isMergeable.No?))
  }

  /** The feedback is gone, and the review is complete again only if this head was approved. */
  predicate Settles(it: Item, step: Step, snap: Snapshot) {
    && step.Step? && step.item.state.ReviewPending?
    && step.item.feedback == Feedback(false, NoMessage, it.feedback.armed, NoBatch)
    && step.item.review
       == it.review.(completed := it.review.completed
                                  || (it.review.lastApproved.Ref? && it.review.lastApproved == snap.headSha))
    && step.item.pr.number == (if snap.prNumber.Ref? then snap.prNumber else it.pr.number)
    && step.actions
       == if it.session.workspace.Workspace? && !it.session.parked then [ClearNoNewInfo(it.id), WorkspaceClose(it.id)]
          else [ClearNoNewInfo(it.id)]
  }

  lemma SignalSettles(cfg: Config, it: Item, snap: Snapshot, now: int)
    requires ReadsNoNewInfo(cfg, it, snap)
    ensures Handle(cfg, it, snap, now) == TryHandleNoNewInfo(it, snap, now)
    ensures Settles(it, Handle(cfg, it, snap, now), snap)
  {
    hide ContinuePendingFeedbackHandoff, ResolvePendingFeedbackBatch, PassAndEvaluate, RestartCi;
  }

  lemma SeenSettles(it: Item, seen: Item, step: Step, snap: Snapshot)
    requires seen == it.(rebase := seen.rebase, feedback := seen.feedback, repair := seen.repair)
    requires seen.feedback == it.feedback.(batch := seen.feedback.batch) && Settles(seen, step, snap)
    ensures Settles(it, step, snap)
  {
  }

  /** Main result: what a no-new-info signal does over a whole poll; it never merges unapproved code. */
  lemma SettlesExactly(cfg: Config, it: Item, snap: Snapshot, now: int)
    requires ReadsNoNewInfo(cfg, it, snap)
    ensures Settles(it, TransitionItem(cfg, it, snap, now), snap)
  {
    hide Seen, Handle, IngestPendingFeedbackBatch, Tail, TryHandleNoNewInfo;
    SeenStands(it, snap, now);
    IngestKeepsMessage(it, snap);
    var seen := Seen(it, snap, now);
    SignalSettles(cfg, seen, snap, now);
    SeenSettles(it, seen, Handle(cfg, seen, snap, now), snap);
    NoBatchNoTail(Body(cfg, it, snap, now).item, snap, now);
  }
}
