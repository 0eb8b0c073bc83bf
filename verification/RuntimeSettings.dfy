/** Settings that change while the orchestrator runs (core/orchestrator.ts). */
module RuntimeSettings {
  import opened OrchestratorTypes

  /** setSkipReview on one item. */
  function SkipReviewSet(it: Item, skip: bool): Item {
    var backfilled := !skip && it.review.completed && it.review.round == 0
      && !it.state.Merged? && !Terminal(it.state) && !it.state.Queued? && !it.state.Ready? && !it.state.Launching? && !it.state.Implementing?;
    if skip && (it.state.Reviewing? || it.state.ReviewPending?) then it.(review := it.review.(completed := true))
    else if backfilled then it.(review := it.review.(completed := false))
    else it
  }
}
