/**
 * Switching the reviews off and on again while items are under way: what the next poll makes of them
 * (core/orchestrator.ts).
 */
module ReviewSwitch {
  import opened OrchestratorTypes
  import opened Lifecycle
  import opened LifecycleFacts
  import opened LifecycleSteps
  import opened Destinations
  import opened PollRequests
  import opened ReviewPosts
  import opened RuntimeSettings

  /** The item is past its worker's first pull request and has not merged. */
  predicate UnderWay(s: State) {
    s == CiPending || s == CiPassed || s == CiFailed || s == Reviewing || s == ReviewPending
  }

  /**
   * Main result: the first poll after the reviews were switched off ends every running review. Its
   * commit passes unless a verdict came in, the reviewer is cleaned up, and no round starts.
   */
  lemma SwitchingOffDrains(cfg: Config, it: Item, snap: Snapshot, now: int)
    requires cfg.skipReview && it.state.Reviewing? && ParkedOk(it) && !snap.prState.PrMerged?
    ensures var step := TransitionItem(cfg, SkipReviewSet(it, true), snap, now);
      && step.Step? && !step.item.state.Reviewing?
      && AskedIn(it.id, step.actions).endsReview
      && (snap.reviewVerdict.NoVerdict? ==> Published(step.actions) == [SetCommitStatus(it.id, it.pr.number, Pass)])
  {
    hide TransitionItem, IngestPendingFeedbackBatch, Evaluated, AskedIn, Published, Sound, Closes, ParksForHuman, CommentsKept, Unreached;
    var drained := SkipReviewSet(it, true);
    ThrowsExactly(cfg, drained, snap, now);
    var held := IngestPendingFeedbackBatch(drained, snap);
    IngestKeeps(drained, snap);
    EndsExactly(cfg, drained, snap, now);
    PollAsks(cfg, drained, snap, now);
    PublishesExactly(cfg, drained, snap, now);
    NoNewRound(cfg, held, snap, now);
    NoNewRound(cfg, held.(review := held.review.(completed := true, lastReviewed := snap.headSha)), snap, now);
  }

  lemma IngestKeeps(it: Item, snap: Snapshot)
    ensures var held := IngestPendingFeedbackBatch(it, snap); held == it.(feedback := held.feedback)
  {
  }

  /** No round starts while reviews are skipped. */
  lemma NoNewRound(cfg: Config, it: Item, snap: Snapshot, now: int)
    requires cfg.skipReview
    ensures !Evaluated(cfg, it, snap, now).Reviewing?
  {
  }

  /** A verdict for the item was never read: its review counts as complete because reviews were skipped. */
  predicate NeverReviewed(it: Item) {
    it.review.completed && it.review.round == 0
  }

  /**
   * Main result: after the reviews were switched on again no item under way that was never reviewed
   * starts merging in the next poll, unless that poll reads its approval.
   */
  lemma SwitchingOnReviews(cfg: Config, it: Item, snap: Snapshot, now: int)
    requires !cfg.skipReview && UnderWay(it.state) && NeverReviewed(it) && ParkedOk(it)
    ensures var step := TransitionItem(cfg, SkipReviewSet(it, false), snap, now);
      step.Step? && step.item.state.Merging? ==> it.state.Reviewing? && snap.reviewVerdict.Approve?
  {
    hide TransitionItem, IngestPendingFeedbackBatch, Evaluated;
    var reopened := SkipReviewSet(it, false);
    var held := IngestPendingFeedbackBatch(reopened, snap);
    IngestKeeps(reopened, snap);
    if TransitionItem(cfg, reopened, snap, now).Step? {
      EndsExactly(cfg, reopened, snap, now);
      OpenWaits(cfg, held, snap, now);
      OpenWaits(cfg, Contested(held), snap, now);
      OpenWaits(cfg, Addressed(held), snap, now);
    }
  }

  /** An open review keeps the item out of the merge. */
  lemma OpenWaits(cfg: Config, it: Item, snap: Snapshot, now: int)
    requires !cfg.skipReview && !it.review.completed
    ensures !Evaluated(cfg, it, snap, now).Merging?
  {
  }

  /** Reviewed items keep their review through both switches. */
  lemma ReviewedStays(it: Item)
    requires it.review.completed && it.review.round > 0
    ensures SkipReviewSet(it, false) == it && SkipReviewSet(it, true) == it
  {
  }
}
