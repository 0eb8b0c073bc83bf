/**
 * What a poll leaves of an item besides its state, and what it asks for, read off where the item goes:
 * its clock, its session, its counters, its pull request and its CI record, and which actions follow
 * from it (core/orchestrator.ts).
 */
module PollEffects {
  import opened OrchestratorTypes
  import opened OrchestratorGuards
  import opened Lifecycle
  import opened LifecycleFacts
  import opened LifecycleSteps
  import opened Destinations

  // ---- What follows from where an item goes -----------------------------------------------

  /** States in which a timeout counts from the last transition. */
  predicate Timed(s: State) {
    s.Launching? || s.Implementing? || s.Rebasing? || s.ForwardFixPending?
  }

  /** The clock of the item restarts when it changes its state, and runs on while it waits in a timed one. */
  predicate Clocked(it: Item, next: Item, now: int) {
    && (next.lastTransition == it.lastTransition || next.lastTransition == now)
    && (next.state != it.state ==> next.lastTransition == now)
    && (Timed(next.state) ==>
          || (next.state == it.state && next.lastTransition == it.lastTransition)
          || (it.state.Launching? && next.state.Implementing?) || (it.state.Merged? && next.state.ForwardFixPending?))
  }

  predicate Relaunched(it: Item, next: Item) {
    next.state.Ready? && !it.state.Ready?
  }

  /** A relaunched item hands its session over to the retry; any other item keeps its session. */
  predicate SessionKept(it: Item, next: Item, snap: Snapshot, now: int) {
    && (it.state.Ready? ==> next.state.Ready?)
    && (if Relaunched(it, next) then
          && next.session.workspace.NoWorkspace? && next.session.pendingRetry == it.session.workspace
          && next.session.lastAliveAt == Undefined && next.session.notAliveCount == 0
        else
          && next.session.workspace == it.session.workspace && next.session.pendingRetry == it.session.pendingRetry
          && (next.session.lastAliveAt == it.session.lastAliveAt
              || (it.state.Implementing? && snap.workerAlive.Yes? && next.session.lastAliveAt == At(now))))
    && (it.state.Ready? && it.session.workspace.NoWorkspace? ==> next.session.notAliveCount == it.session.notAliveCount)
    && (GraceClosed(next.session) || (next.state == it.state && (SameGrace(it.session, next.session) || it.state.Launching? || it.state.Implementing?)))
  }

  predicate GraceClosed(s: Session) {
    s.timeoutDeadline == Undefined && s.timeoutExtensions == 0
  }

  predicate SameGrace(s: Session, t: Session) {
    t.timeoutDeadline == s.timeoutDeadline && t.timeoutExtensions == s.timeoutExtensions
  }

  /** The pull request the worker of an implementing item is judged by is not there, or shows nothing new. */
  predicate NoPrNews(it: Item, snap: Snapshot) {
    || snap.prNumber.Absent? || !snap.prState.Open?
    || (UnchangedSinceReview(it, snap) && !snap.pushback.Ref? && !snap.feedbackDone)
  }

  /** The worker is given up: it never showed up, crashed without a pull request, or is overdue. */
  predicate GivenUp(cfg: Config, it: Item, snap: Snapshot, now: int) {
    || it.state.Launching?
    || (&& it.state.Implementing? && NoPrNews(it, snap) && !Recoverable(it, snap)
        && ((snap.prNumber.Absent? && DeadBy(it, snap, 1)) || (!Heard(snap, now) && Overdue(cfg, it, snap, now) && !InGrace(cfg, it, now))))
  }

  /** A retry is counted exactly when a worker is given up; only a repair pull request restarts the merge attempts. */
  predicate BudgetsKept(cfg: Config, it: Item, next: Item, snap: Snapshot, now: int) {
    && next.retryCount == it.retryCount + (if Relaunched(it, next) && GivenUp(cfg, it, snap, now) then 1 else 0)
    && (next.mergeFailCount == it.mergeFailCount || (it.state.FixingForward? && next.mergeFailCount == 0))
  }

  /** The item was relaunched because its checks fail. */
  predicate RelaunchedForCi(it: Item, next: Item, snap: Snapshot) {
    && Relaunched(it, next)
    && ((it.state.CiFailed? && !snap.ciStatus.Pass?) || (it.state.ReviewPending? && !HandoffPending(next)))
  }

  /** The poll sees the checks fail anew. */
  predicate FailsAnew(it: Item, next: Item, snap: Snapshot) {
    !it.state.CiFailed? && (next.state.CiFailed? || RelaunchedForCi(it, next, snap))
  }

  /**
   * A failure is counted exactly when it is seen anew, and the next worker is told to fix CI exactly
   * when it is relaunched for it; the wait for CI counts from when the item came to wait.
   */
  predicate CiKept(it: Item, next: Item, snap: Snapshot, now: int) {
    && next.ci.failCountTotal == it.ci.failCountTotal + (if FailsAnew(it, next, snap) then 1 else 0)
    && (next.ci.failCount == it.ci.failCount + (if FailsAnew(it, next, snap) then 1 else 0) || it.state.FixingForward?)
    && next.ci.needsFix == (it.ci.needsFix || RelaunchedForCi(it, next, snap))
    && (RelaunchedForCi(it, next, snap) ==> next.ci.notifyWallAt == Undefined)
    && (Relaunched(it, next) && !it.state.Launching? && !it.state.Implementing? ==> RelaunchedForCi(it, next, snap) || HandoffPending(next))
    && (it.state.ReviewPending? && RelaunchedForCi(it, next, snap) ==> !HasBatch(next))
    && (Relaunched(it, next) && !it.state.Launching? && !it.state.Implementing? && !RelaunchedForCi(it, next, snap) ==> !next.review.completed)
    && (next.state.CiPending? && !it.state.CiPending? ==>
          if it.state.Implementing? || it.state.Launching? then next.ci.pendingSince == At(now)
          else next.ci.pendingSince == it.ci.pendingSince || next.ci.pendingSince == Undefined)
    && (next.state == it.state && next.ci.pendingSince != it.ci.pendingSince ==> !next.state.CiPending? && next.ci.pendingSince == Undefined)
    && (next.state != it.state && !next.state.CiPending? ==> next.ci.pendingSince == Undefined)
    && (next.state.CiPending? || next.state.CiPassed? ==>
          || (next.state == it.state && next.ci == it.ci)
          || (!next.ci.notified && next.ci.notifiedAt == Undefined && next.ci.notifyWallAt == Undefined))
    && (next.state.CiFailed? && !it.state.CiFailed? ==> !next.review.completed)
  }

  /** What the item is stacked on stays, and its commit time is forgotten only for a new attempt. */
  predicate PrKept(it: Item, next: Item, snap: Snapshot) {
    && next.pr.baseBranch == it.pr.baseBranch
    && (next.pr.number == it.pr.number || (snap.prNumber.Ref? && next.pr.number == snap.prNumber))
    && (next.pr.number != it.pr.number ==>
          || it.state.FixingForward? || snap.noNewInfo || snap.pushback.Ref? || snap.prState.PrMerged?
          || (it.state.Implementing? && snap.prState.Open?))
    && (next.pr.prior == it.pr.prior || it.state.FixingForward?)
    && (next.pr.lastCommitTime == it.pr.lastCommitTime
        || (next.pr.lastCommitTime == Undefined && Relaunched(it, next) && (it.state.Launching? || it.state.Implementing?)))
  }

  /** The merge commit stays until a repair replaces it, and a failed merge commit is counted once. */
  predicate RepairKept(it: Item, next: Item) {
    && next.repair.workspace == it.repair.workspace
    && (next.repair.mergeCommit == it.repair.mergeCommit || (it.state.FixingForward? && next.repair.mergeCommit == Absent))
    && next.repair.failCount == it.repair.failCount + (if next.state.FixForwardFailed? && !it.state.FixForwardFailed? then 1 else 0)
  }

  /** A rebase that is on request was requested in this state or in this poll; attempts are counted when they are made. */
  predicate RebaseKept(it: Item, next: Item, now: int) {
    && next.rebase.attempts == it.rebase.attempts && next.rebase.workspace == it.rebase.workspace
    && (next.rebase.requested ==> next.rebase.lastNudgeAt == At(now) || (it.rebase.requested && next.state == it.state))
  }

  /** A disagreement is recorded once, and the reviewed commit stays, is forgotten, or is the head. */
  predicate ReviewKept(it: Item, next: Item, snap: Snapshot) {
    && next.review.workspace == it.review.workspace
    && (next.review.pushbacks == it.review.pushbacks
        || ((it.state.Implementing? || it.state.ReviewPending?) && snap.pushback.Ref?
            && next.review.pushbacks == it.review.pushbacks + [snap.pushback.n]))
    && (next.review.lastReviewed == it.review.lastReviewed || next.review.lastReviewed.Absent? || next.review.lastReviewed == snap.headSha)
  }

  /** An item that goes on to the merge path was not given up, and its checks do not fail any more. */
  predicate GoesOn(cfg: Config, it: Item, next: Item, snap: Snapshot, now: int) {
    next.state.ReviewPending? || next.state.CiPassed? || next.state.Merging? ==>
      !GivenUp(cfg, it, snap, now) && (it.state.CiFailed? ==> snap.ciStatus.Pass?)
  }

  /** What a poll makes of the item. */
  predicate Follows(cfg: Config, it: Item, next: Item, snap: Snapshot, now: int) {
    && next.id == it.id && next.workItem == it.workItem
    && Clocked(it, next, now) && SessionKept(it, next, snap, now) && BudgetsKept(cfg, it, next, snap, now)
    && CiKept(it, next, snap, now) && PrKept(it, next, snap) && RepairKept(it, next) && RebaseKept(it, next, now)
    && ReviewKept(it, next, snap) && GoesOn(cfg, it, next, snap, now)
  }

  predicate Fits(cfg: Config, it: Item, step: Step, snap: Snapshot, now: int) {
    step.Step? ==> Follows(cfg, it, step.item, snap, now)
  }

  // ---- Chains of handlers -----------------------------------------------------------------

  /** The states from which a poll goes on to the checks or the merge evaluation. */
  predicate Departs(it: Item, snap: Snapshot) {
    || (it.state.Implementing? && !NoPrNews(it, snap)) || (it.state.CiFailed? && snap.ciStatus.Pass?)
    || it.state.CiPending? || it.state.Reviewing? || it.state.ReviewPending? || it.state.FixingForward?
  }

  /** The item on its way through ci-pending or ci-passed. */
  predicate OnItsWay(it: Item, mid: Item, snap: Snapshot, now: int) {
    && (mid.state.CiPending? || (mid.state.CiPassed? && !it.state.Implementing?)) && mid.state != it.state && Departs(it, snap)
    && mid.id == it.id && mid.workItem == it.workItem && mid.lastTransition == now
    && mid.session.workspace == it.session.workspace && mid.session.pendingRetry == it.session.pendingRetry
    && mid.session.lastAliveAt == it.session.lastAliveAt
    && mid.session.timeoutDeadline == Undefined && mid.session.timeoutExtensions == 0
    && mid.retryCount == it.retryCount && (mid.mergeFailCount == it.mergeFailCount || (it.state.FixingForward? && mid.mergeFailCount == 0))
    && mid.ci.failCountTotal == it.ci.failCountTotal && (mid.ci.failCount == it.ci.failCount || it.state.FixingForward?)
    && mid.ci.needsFix == it.ci.needsFix
    && mid.ci.pendingSince == (if mid.state.CiPassed? then Undefined else if it.state.Implementing? then At(now) else it.ci.pendingSince)
    && !mid.ci.notified && mid.ci.notifiedAt == Undefined && mid.ci.notifyWallAt == Undefined
    && mid.pr.baseBranch == it.pr.baseBranch && mid.pr.lastCommitTime == it.pr.lastCommitTime
    && (mid.pr.number == it.pr.number || (snap.prNumber.Ref? && mid.pr.number == snap.prNumber))
    && (mid.pr.number != it.pr.number ==>
          it.state.FixingForward? || snap.pushback.Ref? || (it.state.Implementing? && snap.prState.Open?))
    && (mid.pr.prior == it.pr.prior || it.state.FixingForward?)
    && mid.repair == it.repair.(mergeCommit := if it.state.FixingForward? then Absent else it.repair.mergeCommit)
    && mid.rebase.attempts == it.rebase.attempts && mid.rebase.workspace == it.rebase.workspace && !mid.rebase.requested
    && ReviewKept(it, mid, snap)
  }

  lemma Chained(cfg: Config, it: Item, mid: Item, next: Item, snap: Snapshot, now: int)
    requires OnItsWay(it, mid, snap, now) && Follows(cfg, mid, next, snap, now)
    requires (it.state.CiPending? ==> !next.state.CiPending?) && (it.state.CiFailed? ==> !next.state.CiFailed?)
    ensures Follows(cfg, it, next, snap, now)
  {
    hide HandoffPending, HasBatch, Overdue, DeadBy, Recoverable, InGrace, Heard;
  }

  /** A handler that goes on from `mid` fits the item when it fits `mid`. */
  lemma ChainFits(cfg: Config, it: Item, mid: Item, step: Step, before: seq<Action>, snap: Snapshot, now: int)
    requires OnItsWay(it, mid, snap, now) && Fits(cfg, mid, step, snap, now)
    requires step.Step? ==> (it.state.CiPending? ==> !step.item.state.CiPending?) && (it.state.CiFailed? ==> !step.item.state.CiFailed?)
    ensures Fits(cfg, it, step.After(before), snap, now) && Fits(cfg, it, step, snap, now)
  {
    hide Follows, OnItsWay;
    if step.Step? {
      Chained(cfg, it, mid, step.item, snap, now);
    }
  }

  // ---- Merge evaluation -------------------------------------------------------------------

  lemma SettleFits(cfg: Config, it: Item, snap: Snapshot, now: int)
    requires it.state.CiPassed? || it.state.ReviewPending?
    ensures Fits(cfg, it, TryHandleNoNewInfo(it, snap, now), snap, now)
  {
  }

  lemma RespawnFits(cfg: Config, it: Item, message: Message, snap: Snapshot, now: int)
    requires !it.state.Launching? && !it.state.Ready? && !message.NoMessage? && (it.state.Implementing? ==> !GivenUp(cfg, it, snap, now))
    requires it.state.CiFailed? ==> snap.ciStatus.Pass?
    ensures var step := RespawnForFeedback(it, message, now);
      Fits(cfg, it, step, snap, now) && (step.Step? ==> step.item.state.Ready? && HandoffPending(step.item))
  {
  }

  lemma HoldFits(cfg: Config, it: Item, snap: Snapshot, now: int)
    requires it.state.CiPassed? || it.state.ReviewPending? || it.state.Merging?
    ensures var held := HoldForHandoff(it, snap, now);
      && held.Moved? && held.item.state.ReviewPending? && held.item.feedback == it.feedback && Follows(cfg, it, held.item, snap, now)
  {
  }

  lemma CountFits(cfg: Config, it: Item, snap: Snapshot, now: int)
    requires it.state.ReviewPending? || it.state.CiPassed? || it.state.Merging?
    ensures Follows(cfg, it, CountLiveness(it, snap), snap, now)
    ensures var seen := CountLiveness(it, snap); Follows(cfg, it, seen.(feedback := seen.feedback.(armed := true)), snap, now)
  {
  }

  /** The second of two steps only waits, delivers comments, holds the item for a worker, or relaunches one for feedback. */
  predicate Settles(mid: Item, next: Item) {
    && next.pr == mid.pr && next.ci.failCount == mid.ci.failCount && next.mergeFailCount == mid.mergeFailCount
    && next.repair == mid.repair && next.rebase.lastNudgeAt == mid.rebase.lastNudgeAt
    && (next.review.completed ==> mid.review.completed) && next.review.pushbacks == mid.review.pushbacks
    && (|| (next.state == mid.state && !mid.state.Ready? && next.session.lastAliveAt == mid.session.lastAliveAt
            && (mid.state.Launching? || mid.state.Implementing? ==> SameGrace(mid.session, next.session)))
        || (mid.state.Ready? && next.state.Ready? && next.ci == mid.ci
            && (next.feedback == mid.feedback || (HandoffPending(next) && HasBatch(mid))))
        || (mid.state.ReviewPending? && next.state.Ready? && HandoffPending(next))
        || ((mid.state.CiPassed? || mid.state.Merging?) && next.state.ReviewPending?))
  }

  lemma Then(cfg: Config, it: Item, mid: Item, next: Item, snap: Snapshot, now: int)
    requires Follows(cfg, it, mid, snap, now) && Follows(cfg, mid, next, snap, now) && Settles(mid, next)
    ensures Follows(cfg, it, next, snap, now)
  {
    hide Overdue, DeadBy, Recoverable, InGrace, Heard, NoPrNews;
    assert Clocked(it, next, now);
    assert SessionKept(it, next, snap, now);
    assert GoesOn(cfg, it, next, snap, now);
    assert BudgetsKept(cfg, it, next, snap, now);
    assert PrKept(it, next, snap);
    assert CiKept(it, next, snap, now);
  }

  lemma HandoffFits(cfg: Config, it: Item, snap: Snapshot, now: int)
    requires it.state.CiPassed? || it.state.ReviewPending? || it.state.Merging?
    ensures Fits(cfg, it, ContinuePendingFeedbackHandoff(it, snap, now), snap, now)
  {
    hide RespawnForFeedback, HoldForHandoff, Follows, Settles;
    if HandoffPending(it) {
      HoldFits(cfg, it, snap, now);
      var held := HoldForHandoff(it, snap, now).item;
      var seen := CountLiveness(held, snap);
      var armed := seen.(feedback := seen.feedback.(armed := true));
      CountFits(cfg, held, snap, now);
      HeldSettles(held, snap, it.feedback.message, now);
      HeldSettles(seen, snap, it.feedback.message, now);
      Then(cfg, it, held, seen, snap, now);
      Then(cfg, it, held, armed, snap, now);
      HeldRelaunches(cfg, it, held, it.feedback.message, snap, now);
      HeldRelaunches(cfg, it, seen, it.feedback.message, snap, now);
    }
  }

  lemma HeldSettles(held: Item, snap: Snapshot, message: Message, now: int)
    requires held.state.ReviewPending?
    ensures var seen := CountLiveness(held, snap);
      seen.state.ReviewPending? && Settles(held, seen) && Settles(held, seen.(feedback := seen.feedback.(armed := true)))
    ensures var step := RespawnForFeedback(held, message, now); step.Step? && (!message.NoMessage? ==> Settles(held, step.item))
  {
  }

  lemma HeldRelaunches(cfg: Config, it: Item, held: Item, message: Message, snap: Snapshot, now: int)
    requires held.state.ReviewPending? && !message.NoMessage? && Follows(cfg, it, held, snap, now)
    ensures Fits(cfg, it, RespawnForFeedback(held, message, now), snap, now)
  {
    hide RespawnForFeedback, Follows, Settles;
    HeldSettles(held, snap, message, now);
    RespawnFits(cfg, held, message, snap, now);
    Then(cfg, it, held, RespawnForFeedback(held, message, now).item, snap, now);
  }

  // ---- Comments that fall due -------------------------------------------------------------

  lemma DeliverFits(cfg: Config, it: Item, snap: Snapshot, now: int)
    requires HasBatch(it) && !it.session.parked
    ensures var step := DeliverBatch(TakeBatch(it, snap), snap, now);
      step.Step? ==> Follows(cfg, it, step.item, snap, now) && Settles(it, step.item)
  {
    hide ReopenReview;
    var taken := TakeBatch(it, snap);
    ReopenFits(taken, now);
    if DeliverBatch(taken, snap, now).Step? {
      DeliveredFits(cfg, it, ReopenReview(taken, now).item, DeliverBatch(taken, snap, now).item, snap, now);
    }
  }

  /** The item with its comments taken, its review reopened, perhaps sent back to review-pending. */
  predicate Reopened(it: Item, next: Item, now: int) {
    && next == it.(state := next.state, lastTransition := next.lastTransition, session := next.session, ci := next.ci, rebase := next.rebase,
                   review := next.review, feedback := next.feedback)
    && !next.review.completed && next.review.pushbacks == it.review.pushbacks && next.review.workspace == it.review.workspace
    && next.rebase == it.rebase.(requested := next.rebase.requested && it.rebase.requested && next.state == it.state)
    && (if next.state == it.state then
          next.lastTransition == it.lastTransition && next.session == it.session && next.ci == it.ci
        else
          && (it.state.CiPassed? || it.state.Merging?) && next.state.ReviewPending? && next.lastTransition == now
          && GraceClosed(next.session) && next.ci == it.ci.(pendingSince := Undefined)
          && next.session == it.session.(parked := next.session.parked, timeoutDeadline := Undefined, timeoutExtensions := 0))
  }

  lemma ReopenFits(it: Item, now: int)
    ensures var move := ReopenReview(it, now);
      move.Moved? ==>
        Reopened(it, move.item, now) && move.item.feedback == it.feedback && move.item.review.lastReviewed == it.review.lastReviewed
  {
  }

  lemma DeliveredFits(cfg: Config, it: Item, reopened: Item, next: Item, snap: Snapshot, now: int)
    requires HasBatch(it) && Reopened(it, reopened, now) && HandoffPending(next)
    requires next == reopened.(session := next.session, feedback := next.feedback)
    requires next.session == reopened.session.(notAliveCount := next.session.notAliveCount)
    requires reopened.session.workspace.NoWorkspace? ==> next.session == reopened.session
    requires next.review.lastReviewed == it.review.lastReviewed || next.review.lastReviewed == snap.headSha
    ensures Follows(cfg, it, next, snap, now) && Settles(it, next)
  {
  }

  lemma ResolveFits(cfg: Config, it: Item, snap: Snapshot, now: int)
    requires ParkedOk(it)
    ensures var step := ResolvePendingFeedbackBatch(it, snap, now);
      step.Step? ==> Follows(cfg, it, step.item, snap, now) && Settles(it, step.item)
  {
    hide DeliverBatch, RespawnForFeedback, Follows, Settles, TakeBatch, CountLiveness;
    if BatchDue(it, now) {
      var seen := SampleForDelivery(it, snap);
      SampleFits(cfg, it, snap, now);
      if FeedbackBatchDeliveryMode(it, snap).Relaunch? {
        BatchRelaunches(cfg, it, seen, snap, now);
      } else if FeedbackBatchDeliveryMode(it, snap).Deliver? {
        DeliverFits(cfg, seen, snap, now);
        var step := DeliverBatch(TakeBatch(seen, snap), snap, now);
        if step.Step? {
          SettlesOn(it, seen, step.item);
          Then(cfg, it, seen, step.item, snap, now);
        }
      }
    } else {
      SameFits(cfg, it, snap, now);
    }
  }

  lemma SameFits(cfg: Config, it: Item, snap: Snapshot, now: int)
    ensures Follows(cfg, it, it, snap, now) && Settles(it, it)
  {
  }

  lemma SampleFits(cfg: Config, it: Item, snap: Snapshot, now: int)
    requires ParkedOk(it)
    ensures var seen := SampleForDelivery(it, snap);
      && Follows(cfg, it, seen, snap, now) && Settles(it, seen)
      && seen == it.(session := seen.session) && seen.session == it.session.(notAliveCount := seen.session.notAliveCount)
      && (!it.state.ReviewPending? ==> seen == it)
  {
  }

  lemma SettlesOn(it: Item, seen: Item, next: Item)
    requires seen == it.(session := seen.session) && seen.session == it.session.(notAliveCount := seen.session.notAliveCount)
    requires Settles(seen, next)
    ensures Settles(it, next)
  {
  }

  lemma BatchRelaunches(cfg: Config, it: Item, seen: Item, snap: Snapshot, now: int)
    requires it.feedback.batch.Batch? && ParkedOk(it) && (it.session.parked || it.state.ReviewPending?)
    requires seen == it.(session := seen.session) && seen.session == it.session.(notAliveCount := seen.session.notAliveCount)
    ensures var taken := TakeBatch(seen, snap);
      var step := RespawnForFeedback(taken, taken.feedback.message, now);
      step.Step? ==> Follows(cfg, it, step.item, snap, now) && Settles(it, step.item)
  {
  }

  lemma EntersFit(cfg: Config, it: Item, review: Review, to: State, snap: Snapshot, now: int)
    requires it.state.CiPassed? || it.state.ReviewPending?
    requires review == it.review.(round := review.round)
    requires to != it.state && (to.Reviewing? || to.ReviewPending? || to.Merging? || to.Stuck?)
    ensures var next := Enter(it.(review := review), to, now);
      Follows(cfg, it, next, snap, now) && Follows(cfg, it, next.(session := next.session.(parked := true)), snap, now)
  {
  }

  lemma RoundFits(cfg: Config, it: Item, snap: Snapshot, now: int)
    requires it.state.CiPassed? || it.state.ReviewPending?
    ensures Fits(cfg, it, LaunchReviewRound(cfg, it, snap, now), snap, now)
  {
    hide Follows, Enter;
    SameFits(cfg, it, snap, now);
    EntersFit(cfg, it, it.review, Stuck, snap, now);
    EntersFit(cfg, it, it.review.(round := it.review.round + 1), Reviewing, snap, now);
  }

  lemma ParksFit(cfg: Config, it: Item, snap: Snapshot, now: int)
    ensures Follows(cfg, it, it.(session := it.session.(parked := true)), snap, now)
  {
  }

  lemma HoldOrMergeFits(cfg: Config, it: Item, snap: Snapshot, now: int)
    requires it.state.CiPassed? || it.state.ReviewPending?
    ensures Fits(cfg, it, HoldOrMerge(cfg, it, snap, now), snap, now)
  {
    hide Follows, Enter;
    SameFits(cfg, it, snap, now);
    ParksFit(cfg, it, snap, now);
    if it.state.CiPassed? {
      EntersFit(cfg, it, it.review, ReviewPending, snap, now);
    }
    EntersFit(cfg, it, it.review, Merging, snap, now);
  }

  /** What merge evaluation changes the item into before it goes on does not matter. */
  lemma GatedFits(cfg: Config, it: Item, gated: Item, step: Step, snap: Snapshot, now: int)
    requires it.state.CiPassed? || it.state.ReviewPending?
    requires gated == it.(review := it.review.(completed := gated.review.completed)) && Fits(cfg, gated, step, snap, now)
    ensures Fits(cfg, it, step, snap, now)
  {
    hide HandoffPending, HasBatch, Overdue, DeadBy, Recoverable, InGrace, Heard;
  }

  /** The evaluation never sends the item back to CI. */
  predicate Onward(step: Step) {
    step.Step? ==> !step.item.state.CiPending? && !step.item.state.CiFailed?
  }

  lemma EvaluateFits(cfg: Config, it: Item, snap: Snapshot, now: int)
    requires (it.state.CiPassed? || it.state.ReviewPending?) && ParkedOk(it)
    ensures Fits(cfg, it, EvaluateMerge(cfg, it, snap, now), snap, now) && Onward(EvaluateMerge(cfg, it, snap, now))
  {
    hide TryHandleNoNewInfo, ContinuePendingFeedbackHandoff, ResolvePendingFeedbackBatch, LaunchReviewRound, HoldOrMerge, Follows, Onward;
    SettleFits(cfg, it, snap, now);
    HandoffFits(cfg, it, snap, now);
    ResolveFits(cfg, it, snap, now);
    GatesOnward(cfg, it, snap, now);
    var gated := it.(review := it.review.(completed := it.review.completed || cfg.skipReview));
    RoundFits(cfg, gated, snap, now);
    HoldOrMergeFits(cfg, gated, snap, now);
    GatesOnward(cfg, gated, snap, now);
    GatedFits(cfg, it, gated, LaunchReviewRound(cfg, gated, snap, now), snap, now);
    GatedFits(cfg, it, gated, HoldOrMerge(cfg, gated, snap, now), snap, now);
    ThrowOnward(EvaluateMerge(cfg, it, snap, now));
  }

  lemma ThrowOnward(step: Step)
    ensures !step.Step? ==> Onward(step)
  {
  }

  lemma GatesOnward(cfg: Config, it: Item, snap: Snapshot, now: int)
    requires it.state.CiPassed? || it.state.ReviewPending?
    ensures Onward(TryHandleNoNewInfo(it, snap, now)) && Onward(ContinuePendingFeedbackHandoff(it, snap, now))
    ensures Onward(ResolvePendingFeedbackBatch(it, snap, now))
    ensures Onward(LaunchReviewRound(cfg, it, snap, now)) && Onward(HoldOrMerge(cfg, it, snap, now))
  {
    hide ContinuePendingFeedbackHandoff, ResolvePendingFeedbackBatch;
    FeedbackOnward(it, snap, now);
  }

  lemma FeedbackOnward(it: Item, snap: Snapshot, now: int)
    requires it.state.CiPassed? || it.state.ReviewPending?
    ensures Onward(ContinuePendingFeedbackHandoff(it, snap, now)) && Onward(ResolvePendingFeedbackBatch(it, snap, now))
  {
  }

  lemma PassFits(cfg: Config, it: Item, mid: Item, snap: Snapshot, before: seq<Action>, now: int)
    requires !mid.state.CiPassed? && (mid.state == it.state || it.state.CiFailed?)
    requires Legal(mid.state, CiPassed) ==> OnItsWay(it, Enter(mid, CiPassed, now), snap, now)
    ensures Fits(cfg, it, PassAndEvaluate(cfg, mid, snap, before, now), snap, now)
    ensures Onward(PassAndEvaluate(cfg, mid, snap, before, now))
  {
    hide EvaluateMerge, Follows, OnItsWay;
    var passed := Transition(mid, CiPassed, now);
    if passed.Moved? {
      EvaluateFits(cfg, passed.item, snap, now);
      ChainFits(cfg, it, passed.item, EvaluateMerge(cfg, passed.item, snap, now), before, snap, now);
    }
  }

  // ---- CI ---------------------------------------------------------------------------------

  /** Rebase tracking is not part of what `Follows` says. */
  lemma PlanFits(cfg: Config, it: Item, mid: Item, snap: Snapshot, now: int)
    requires Follows(cfg, it, mid, snap, now)
    ensures Fits(cfg, it, PlanRebaseConflictAction(cfg, mid, now), snap, now)
    ensures var plan := PlanRebaseConflictAction(cfg, mid, now); plan.Step? && plan.item.state == mid.state
  {
    hide PlanRebaseConflictAction, Overdue, DeadBy, Recoverable, InGrace, Heard;
    PlanKeeps(cfg, mid, now);
    PlanRecords(cfg, mid, now);
  }

  lemma PlanRecords(cfg: Config, it: Item, now: int)
    ensures var plan := PlanRebaseConflictAction(cfg, it, now);
      && plan.Step? && plan.item.rebase.attempts == it.rebase.attempts && plan.item.rebase.workspace == it.rebase.workspace
      && (plan.item.rebase.requested ==> plan.item.rebase.lastNudgeAt == At(now) || plan.item == it)
  {
  }

  lemma FailingFits(cfg: Config, it: Item, mid: Item, snap: Snapshot, now: int)
    requires mid == it.(session := mid.session) && mid.session == it.session.(notAliveCount := mid.session.notAliveCount)
    requires it.state.CiPending? || it.state.CiPassed? || it.state.Reviewing? || it.state.ReviewPending?
    ensures var failed := CountCiFailure(Enter(mid, CiFailed, now));
      && Follows(cfg, it, failed, snap, now) && Follows(cfg, it, EmitCiFailureNotification(failed, now).item, snap, now)
  {
    hide HandoffPending, HasBatch;
  }

  lemma FailFits(cfg: Config, it: Item, snap: Snapshot, now: int)
    requires it.state.CiPending? || it.state.CiPassed?
    ensures Fits(cfg, it, FailCi(cfg, it, snap, now), snap, now)
  {
    hide PlanRebaseConflictAction, Follows, EmitCiFailureNotification;
    FailingFits(cfg, it, it, snap, now);
    PlanFits(cfg, it, CountCiFailure(Enter(it, CiFailed, now)), snap, now);
    EmitSteps(CountCiFailure(Enter(it, CiFailed, now)), now);
  }

  lemma EmitSteps(it: Item, now: int)
    ensures EmitCiFailureNotification(it, now).Step?
  {
  }

  lemma PendingFits(cfg: Config, it: Item, mid: Item, snap: Snapshot, now: int)
    requires mid == it.(session := mid.session) && mid.session == it.session.(notAliveCount := mid.session.notAliveCount)
    requires it.state.CiPassed? || it.state.CiFailed? || it.state.Rebasing? || it.state.Reviewing? || it.state.ReviewPending?
    ensures Follows(cfg, it, Enter(mid, CiPending, now), snap, now)
  {
    hide HandoffPending, HasBatch;
  }

  lemma RestartFits(cfg: Config, it: Item, snap: Snapshot, before: seq<Action>, now: int)
    requires it.state.CiPassed? || it.state.CiFailed? || it.state.Rebasing? || it.state.ReviewPending?
    ensures Fits(cfg, it, RestartCi(it, snap, before, now), snap, now)
  {
    hide HandoffPending, HasBatch;
    PendingFits(cfg, it, it, snap, now);
  }

  lemma WaitFits(cfg: Config, it: Item, snap: Snapshot, now: int)
    requires ParkedOk(it)
    ensures Fits(cfg, it, ResolvePendingFeedbackBatch(it, snap, now).OrStay(it), snap, now)
  {
    hide Follows, ResolvePendingFeedbackBatch;
    ResolveFits(cfg, it, snap, now);
    SameFits(cfg, it, snap, now);
  }

  lemma CheckFits(cfg: Config, it: Item, snap: Snapshot, now: int)
    requires it.state.CiPending? && !it.session.parked
    ensures Fits(cfg, it, HandleCiPending(cfg, it, snap, now), snap, now)
  {
    hide FailCi, PlanRebaseConflictAction, PassAndEvaluate, ResolvePendingFeedbackBatch, Follows;
    SameFits(cfg, it, snap, now);
    FailFits(cfg, it, snap, now);
    PlanFits(cfg, it, it, snap, now);
    PassesFit(cfg, it, snap, [], now);
    WaitFits(cfg, it, snap, now);
  }

  /** The item passes its checks where it is. */
  lemma PassesFit(cfg: Config, it: Item, snap: Snapshot, before: seq<Action>, now: int)
    requires it.state.CiPending? || it.state.Reviewing? || it.state.ReviewPending?
    ensures Fits(cfg, it, PassAndEvaluate(cfg, it, snap, before, now), snap, now)
  {
    hide PassAndEvaluate, Follows;
    PassFits(cfg, it, it, snap, before, now);
  }

  lemma PassedFits(cfg: Config, it: Item, snap: Snapshot, now: int)
    requires it.state.CiPassed? && !it.session.parked
    ensures Fits(cfg, it, HandleCiPassed(cfg, it, snap, now), snap, now)
  {
    hide FailCi, PlanRebaseConflictAction, EvaluateMerge, RestartCi, Follows;
    FailFits(cfg, it, snap, now);
    RestartFits(cfg, it, snap, [], now);
    PendingFits(cfg, it, it, snap, now);
    PlanFits(cfg, it, Enter(it, CiPending, now), snap, now);
    EvaluateFits(cfg, it, snap, now);
  }

  lemma NotifiedFits(cfg: Config, it: Item, snap: Snapshot, now: int)
    requires it.state.CiFailed?
    ensures NotifyStillFailing(it, now).Step?
    ensures var seen := CountLiveness(NotifyStillFailing(it, now).item, snap);
      && seen == it.(session := seen.session, ci := seen.ci) && seen.session == it.session.(notAliveCount := seen.session.notAliveCount)
      && seen.ci == it.ci.(notified := seen.ci.notified, notifiedAt := seen.ci.notifiedAt, notifyWallAt := seen.ci.notifyWallAt)
  {
  }

  /** A notification and a reading leave no trace in what `Follows` says. */
  lemma FailedSeenFits(cfg: Config, it: Item, seen: Item, next: Item, snap: Snapshot, now: int)
    requires it.state.CiFailed? && Follows(cfg, seen, next, snap, now)
    requires seen == it.(session := seen.session, ci := seen.ci) && seen.session == it.session.(notAliveCount := seen.session.notAliveCount)
    requires seen.ci == it.ci.(notified := seen.ci.notified, notifiedAt := seen.ci.notifiedAt, notifyWallAt := seen.ci.notifyWallAt)
    ensures Follows(cfg, it, next, snap, now)
  {
    hide HandoffPending, HasBatch, Overdue, DeadBy, Recoverable, InGrace, Heard;
  }

  lemma CiRespawnFits(cfg: Config, it: Item, snap: Snapshot, now: int)
    requires it.state.CiFailed? && !snap.ciStatus.Pass?
    ensures Fits(cfg, it, RespawnCiFixWorker(it, now), snap, now)
  {
  }

  lemma StillFailingFits(cfg: Config, it: Item, snap: Snapshot, now: int)
    requires it.state.CiFailed? && !it.session.parked && !snap.ciStatus.Pass?
    ensures Fits(cfg, it, HandleCiStillFailing(it, snap, now), snap, now)
  {
    hide ResolvePendingFeedbackBatch, RespawnCiFixWorker, NotifyStillFailing, Follows, CiFixUnacknowledged;
    NotifiedFits(cfg, it, snap, now);
    var seen := CountLiveness(NotifyStillFailing(it, now).item, snap);
    CiRespawnFits(cfg, seen, snap, now);
    WaitFits(cfg, seen, snap, now);
    var step := HandleCiStillFailing(it, snap, now);
    if step.Step? {
      FailedSeenFits(cfg, it, seen, step.item, snap, now);
    }
  }

  lemma FailedFits(cfg: Config, it: Item, snap: Snapshot, now: int)
    requires it.state.CiFailed? && !it.session.parked
    ensures Fits(cfg, it, HandleCiFailed(cfg, it, snap, now), snap, now)
  {
    hide HandleCiPassed, RestartCi, PlanRebaseConflictAction, HandleCiStillFailing, Follows, OnItsWay;
    if it.ci.failCount > cfg.maxCiRetries {
      BrokenFits(cfg, it, snap, now);
    } else if snap.ciStatus.Pass? {
      var passed := Enter(it, CiPassed, now);
      PassedWay(it, snap, now);
      PassedFits(cfg, passed, snap, now);
      PassedStays(cfg, passed, snap, now);
      ChainFits(cfg, it, passed, HandleCiPassed(cfg, passed, snap, now), [], snap, now);
    } else {
      SameFits(cfg, it, snap, now);
      RestartFits(cfg, it, snap, [], now);
      PlanFits(cfg, it, it, snap, now);
      StillFailingFits(cfg, it, snap, now);
    }
  }

  lemma PassedWay(it: Item, snap: Snapshot, now: int)
    requires it.state.CiFailed? && snap.ciStatus.Pass?
    ensures OnItsWay(it, Enter(it, CiPassed, now), snap, now)
  {
  }

  lemma PassedStays(cfg: Config, it: Item, snap: Snapshot, now: int)
    requires it.state.CiPassed? && snap.ciStatus.Pass? && !it.session.parked
    ensures var step := HandleCiPassed(cfg, it, snap, now); step.Step? ==> !step.item.state.CiFailed?
  {
    hide EvaluateMerge, PlanRebaseConflictAction, Follows;
    EvaluateFits(cfg, it, snap, now);
    PlanKeeps(cfg, Enter(it, CiPending, now), now);
  }

  lemma BrokenFits(cfg: Config, it: Item, snap: Snapshot, now: int)
    requires it.state.CiFailed? && it.ci.failCount > cfg.maxCiRetries
    ensures Fits(cfg, it, HandleCiFailed(cfg, it, snap, now), snap, now)
  {
    hide HandoffPending, HasBatch;
  }

  // ---- A worker at work -------------------------------------------------------------------

  lemma ResumeFits(cfg: Config, it: Item, mid: Item, snap: Snapshot, signal: seq<Action>, now: int)
    requires OnItsWay(it, Enter(mid, CiPending, now), snap, now)
    requires mid.state == it.state && (it.state.Implementing? || it.state.ReviewPending?)
    ensures Fits(cfg, it, ResumeCi(cfg, mid, snap, signal, now), snap, now)
  {
    hide HandleCiPending, Follows, OnItsWay;
    var pending := Enter(mid, CiPending, now);
    CheckFits(cfg, pending, snap, now);
    var sync := if mid.pr.baseBranch.Ref? then [SyncStackComments(mid.id)] else [];
    ChainFits(cfg, it, pending, HandleCiPending(cfg, pending, snap, now), signal + sync, snap, now);
  }

  lemma OpenPrWays(it: Item, snap: Snapshot, now: int)
    requires it.state.Implementing? && snap.prNumber.Ref? && snap.prState.Open? && !NoPrNews(it, snap)
    ensures OnItsWay(it, Enter(TrackPr(it, snap), CiPending, now), snap, now)
    ensures OnItsWay(it, Enter(RecordPushback(it, snap), CiPending, now), snap, now)
    ensures OnItsWay(it, Enter(TrackPr(FinishFeedback(it), snap), CiPending, now), snap, now)
  {
  }

  lemma OpenPrFits(cfg: Config, it: Item, snap: Snapshot, now: int)
    requires it.state.Implementing? && snap.prNumber.Ref? && snap.prState.Open? && !NoPrNews(it, snap)
    ensures Fits(cfg, it, HandleOpenPr(cfg, it, snap, now), snap, now)
  {
    hide ResumeCi, TryHandleNoNewInfo, Follows, OnItsWay;
    OpenPrWays(it, snap, now);
    ResumeFits(cfg, it, TrackPr(it, snap), snap, [], now);
    ResumeFits(cfg, it, RecordPushback(it, snap), snap, [ClearPushback(it.id)], now);
    ResumeFits(cfg, it, TrackPr(FinishFeedback(it), snap), snap, [ClearFeedbackDone(it.id)], now);
    SettleThrows(it, snap, now);
  }

  lemma SettleThrows(it: Item, snap: Snapshot, now: int)
    requires it.state.Implementing?
    ensures !TryHandleNoNewInfo(it, snap, now).Step?
  {
  }

  /** The item as a handler of a working worker sees it: sampled, and with the pull request of the poll. */
  predicate Sampled(it: Item, seen: Item, snap: Snapshot, now: int) {
    && seen == it.(session := seen.session, pr := it.pr.(number := seen.pr.number))
    && (seen.pr.number == it.pr.number
        || (it.state.Implementing? && snap.prNumber.Ref? && snap.prState.Open? && seen.pr.number == snap.prNumber))
    && seen.session == it.session.(notAliveCount := seen.session.notAliveCount, lastAliveAt := seen.session.lastAliveAt)
    && (seen.session.lastAliveAt == it.session.lastAliveAt
        || (it.state.Implementing? && snap.workerAlive.Yes? && seen.session.lastAliveAt == At(now)))
  }

  lemma GiveUpFits(cfg: Config, it: Item, seen: Item, snap: Snapshot, now: int)
    requires (it.state.Launching? || it.state.Implementing?) && Sampled(it, seen, snap, now) && GivenUp(cfg, it, snap, now)
    ensures Fits(cfg, it, StuckOrRetry(cfg, seen, now), snap, now)
  {
    hide HandoffPending, HasBatch, GivenUp;
  }

  lemma RecoversFits(cfg: Config, it: Item, seen: Item, snap: Snapshot, now: int)
    requires it.state.Implementing? && Sampled(it, seen, snap, now) && !GivenUp(cfg, it, snap, now)
    ensures Fits(cfg, it, RecoverHeadlessWorker(seen, now), snap, now)
    ensures !seen.feedback.message.NoMessage? ==> Fits(cfg, it, RespawnForFeedback(seen, seen.feedback.message, now), snap, now)
  {
    hide GivenUp, HasBatch;
  }

  lemma SampledFits(cfg: Config, it: Item, seen: Item, snap: Snapshot, now: int)
    requires (it.state.Launching? || it.state.Implementing?) && Sampled(it, seen, snap, now)
    ensures Follows(cfg, it, seen, snap, now) && Follows(cfg, it, OpenGraceWindow(cfg, seen, now), snap, now)
    ensures it.state.Launching? ==> Follows(cfg, it, Enter(seen, Implementing, now), snap, now)
  {
    hide HandoffPending, HasBatch, Overdue, DeadBy, Recoverable, InGrace, Heard, NoPrNews;
  }

  lemma LaunchingFits(cfg: Config, it: Item, snap: Snapshot, now: int)
    requires it.state.Launching?
    ensures Fits(cfg, it, HandleLaunching(cfg, it, snap, now), snap, now)
  {
    hide StuckOrRetry, Follows, OpenGraceWindow, Enter;
    var seen := CountLiveness(it, snap);
    SampledFits(cfg, it, seen, snap, now);
    GiveUpFits(cfg, it, seen, snap, now);
  }

  lemma MarkSamples(it: Item, tracked: Item, snap: Snapshot, now: int)
    requires it.state.Implementing? && (tracked == it || (snap.prNumber.Ref? && snap.prState.Open? && tracked == TrackPr(it, snap)))
    ensures Sampled(it, MarkWorking(tracked, snap, now), snap, now)
  {
  }

  /** The conditions under which the handler of a working worker acts. */
  lemma WorkConditions(cfg: Config, it: Item, tracked: Item, snap: Snapshot, now: int)
    requires it.state.Implementing? && (tracked == it || (snap.prNumber.Ref? && tracked == TrackPr(it, snap)))
    ensures var seen := MarkWorking(tracked, snap, now);
      && (LivenessOf(tracked, snap).Dead? <==> DeadBy(it, snap, 1))
      && (IsHeartbeatActive(snap.heartbeatAt, now, HEARTBEAT_MS) <==> Heard(snap, now))
      && (WorkTimedOut(cfg, tracked, seen, snap, now) <==> Overdue(cfg, it, snap, now))
      && (DefersTimeout(cfg, seen, now) <==> InGrace(cfg, it, now))
      && (IsRecoverableHeadlessStop(seen, snap) <==> Recoverable(it, snap))
  {
  }

  lemma WorkingFits(cfg: Config, it: Item, tracked: Item, snap: Snapshot, now: int)
    requires it.state.Implementing? && NoPrNews(it, snap)
    requires tracked == it || (snap.prNumber.Ref? && snap.prState.Open? && tracked == TrackPr(it, snap))
    ensures Fits(cfg, it, HandleWorking(cfg, tracked, snap, now), snap, now)
  {
    hide StuckOrRetry, RespawnForFeedback, WorkTimedOut, InboxWaitStalled, RecoverHeadlessWorker, OpenGraceWindow, MarkWorking, Follows,
         Sampled, LivenessOf, IsHeartbeatActive, DefersTimeout, IsRecoverableHeadlessStop, NoPrNews, DeadBy, Heard, Overdue, InGrace, Recoverable;
    var seen := MarkWorking(tracked, snap, now);
    MarkSamples(it, tracked, snap, now);
    WorkConditions(cfg, it, tracked, snap, now);
    SampledFits(cfg, it, seen, snap, now);
    if GivenUp(cfg, it, snap, now) {
      GiveUpFits(cfg, it, seen, snap, now);
    } else {
      RecoversFits(cfg, it, seen, snap, now);
    }
  }

  lemma ImplementingFits(cfg: Config, it: Item, snap: Snapshot, now: int)
    requires it.state.Implementing?
    ensures Fits(cfg, it, HandleImplementing(cfg, it, snap, now), snap, now)
  {
    hide HandleOpenPr, HandleWorking, Follows;
    if snap.prNumber.Ref? && snap.prState.Open? {
      if NoPrNews(it, snap) {
        NoNewsDeclines(cfg, it, snap, now);
        WorkingFits(cfg, it, TrackPr(it, snap), snap, now);
      } else {
        OpenPrFits(cfg, it, snap, now);
        NewsAnswers(cfg, it, snap, now);
      }
    } else {
      WorkingFits(cfg, it, it, snap, now);
    }
  }

  lemma NoNewsDeclines(cfg: Config, it: Item, snap: Snapshot, now: int)
    requires it.state.Implementing? && snap.prNumber.Ref? && snap.prState.Open? && NoPrNews(it, snap)
    ensures !HandleOpenPr(cfg, it, snap, now).Step?
  {
    hide ResumeCi;
  }

  lemma NewsAnswers(cfg: Config, it: Item, snap: Snapshot, now: int)
    requires it.state.Implementing? && snap.prNumber.Ref? && snap.prState.Open? && !NoPrNews(it, snap)
    ensures !HandleOpenPr(cfg, it, snap, now).Declined?
  {
    hide ResumeCi;
    ResumeAnswers(cfg, RecordPushback(it, snap), snap, [ClearPushback(it.id)], now);
    ResumeAnswers(cfg, TrackPr(it, snap), snap, [], now);
    ResumeAnswers(cfg, TrackPr(FinishFeedback(it), snap), snap, [ClearFeedbackDone(it.id)], now);
  }

  // ---- Rebases and reviews ----------------------------------------------------------------

  lemma RebasingFits(cfg: Config, it: Item, snap: Snapshot, now: int)
    requires it.state.Rebasing?
    ensures Fits(cfg, it, HandleRebasing(it, snap, now), snap, now)
  {
    hide RestartCi, Follows, Enter;
    RestartFits(cfg, it, snap, [CleanRebaser(it.id)], now);
    RebaserFits(cfg, it, snap, now);
  }

  lemma RebaserFits(cfg: Config, it: Item, snap: Snapshot, now: int)
    requires it.state.Rebasing?
    ensures var seen := CountLiveness(it, snap);
      && Follows(cfg, it, it, snap, now) && Follows(cfg, it, seen, snap, now) && Follows(cfg, it, Enter(seen, Stuck, now), snap, now)
  {
    hide Follows, Enter;
    SameFits(cfg, it, snap, now);
    ReadingFits(cfg, it, snap, now);
    EndFits(cfg, it, CountLiveness(it, snap), Stuck, snap, now);
  }

  /** A reading leaves no trace, and an item whose helper is dead or no longer needed ends. */
  lemma ReadingFits(cfg: Config, it: Item, snap: Snapshot, now: int)
    requires it.state.Rebasing? || it.state.FixingForward?
    ensures var seen := CountLiveness(it, snap);
      && Follows(cfg, it, seen, snap, now)
      && seen == it.(session := seen.session) && seen.session == it.session.(notAliveCount := seen.session.notAliveCount)
  {
    hide HandoffPending, HasBatch;
  }

  lemma EndFits(cfg: Config, it: Item, seen: Item, to: State, snap: Snapshot, now: int)
    requires (it.state.Rebasing? || it.state.FixingForward?) && (to.Stuck? || to.Done?)
    requires seen == it.(session := seen.session) && seen.session == it.session.(notAliveCount := seen.session.notAliveCount)
    ensures Follows(cfg, it, Enter(seen, to, now), snap, now)
  {
    hide HandoffPending, HasBatch;
  }

  lemma ReviewWays(it: Item, mid: Item, snap: Snapshot, now: int)
    requires it.state.Reviewing? || it.state.ReviewPending?
    requires mid == it.(session := mid.session, review := mid.review, feedback := mid.feedback, rebase := mid.rebase)
    requires mid.session == it.session.(notAliveCount := mid.session.notAliveCount, parked := mid.session.parked)
    requires mid.rebase.attempts == it.rebase.attempts && mid.rebase.workspace == it.rebase.workspace && ReviewKept(it, mid, snap)
    ensures OnItsWay(it, Enter(mid, CiPassed, now), snap, now)
  {
  }

  /** The item passes its checks with another review or reading on record. */
  lemma OnwardFits(cfg: Config, it: Item, mid: Item, snap: Snapshot, before: seq<Action>, now: int)
    requires it.state.Reviewing? || it.state.ReviewPending?
    requires mid == it.(session := mid.session, review := mid.review, feedback := mid.feedback, rebase := mid.rebase)
    requires mid.session == it.session.(notAliveCount := mid.session.notAliveCount, parked := mid.session.parked)
    requires mid.rebase.attempts == it.rebase.attempts && mid.rebase.workspace == it.rebase.workspace && ReviewKept(it, mid, snap)
    ensures Fits(cfg, it, PassAndEvaluate(cfg, mid, snap, before, now), snap, now)
  {
    hide PassAndEvaluate, OnItsWay, Follows;
    ReviewWays(it, mid, snap, now);
    PassFits(cfg, it, mid, snap, before, now);
  }

  lemma RunningFits(cfg: Config, it: Item, snap: Snapshot, now: int)
    requires it.state.Reviewing?
    ensures Fits(cfg, it, HandleReviewRunning(cfg, it, snap, now), snap, now)
  {
    hide PassAndEvaluate, PlanRebaseConflictAction, Follows, Enter, CountCiFailure;
    var seen := if it.review.workspace.Workspace? then CountLiveness(it, snap) else it;
    var clean := [CleanReview(it.id)];
    OnwardFits(cfg, it, it, snap, clean + [SetCommitStatus(it.id, it.pr.number, Pass)], now);
    ReviewerSampled(cfg, it, snap, now);
    OnwardFits(cfg, it, seen, snap, clean + [SetCommitStatus(it.id, it.pr.number, Fail)], now);
    FailingFits(cfg, it, seen, snap, now);
    PlanFits(cfg, it, CountCiFailure(Enter(seen, CiFailed, now)), snap, now);
    PendingFits(cfg, it, seen, snap, now);
    PlanFits(cfg, it, Enter(seen, CiPending, now), snap, now);
  }

  lemma ReviewerSampled(cfg: Config, it: Item, snap: Snapshot, now: int)
    requires it.state.Reviewing?
    ensures var seen := CountLiveness(it, snap);
      && seen == it.(session := seen.session) && seen.session == it.session.(notAliveCount := seen.session.notAliveCount)
      && Follows(cfg, it, it, snap, now) && Follows(cfg, it, seen, snap, now)
  {
  }

  lemma SentBackFits(cfg: Config, it: Item, snap: Snapshot, now: int)
    requires it.state.Reviewing? && snap.reviewVerdict.RequestChanges?
    ensures Fits(cfg, it, HandleReviewing(cfg, it, snap, now), snap, now)
  {
    hide HandoffPending, HasBatch;
  }

  lemma ReviewingFits(cfg: Config, it: Item, snap: Snapshot, now: int)
    requires it.state.Reviewing?
    ensures Fits(cfg, it, HandleReviewing(cfg, it, snap, now), snap, now)
  {
    hide PassAndEvaluate, HandleReviewRunning, Follows;
    match snap.reviewVerdict
    case Approve =>
      var approved := it.(review := it.review.(completed := true, lastReviewed := snap.headSha, lastApproved := snap.headSha));
      var posted := [CleanReview(it.id), PostReview(it.id, it.pr.number, Approve), SetCommitStatus(it.id, it.pr.number, Pass)];
      OnwardFits(cfg, it, approved, snap, posted, now);
    case RequestChanges => SentBackFits(cfg, it, snap, now);
    case NoVerdict => RunningFits(cfg, it, snap, now);
  }

  lemma FailReviewFits(cfg: Config, it: Item, snap: Snapshot, before: seq<Action>, now: int)
    requires it.state.ReviewPending? && FeedbackSettled(it)
    ensures Fits(cfg, it, FailCiFromReview(cfg, it, snap, before, now), snap, now)
  {
    hide PlanRebaseConflictAction, Follows, EmitCiFailureNotification, RespawnCiFixWorker, Enter, CountCiFailure;
    var failed := CountCiFailure(Enter(it, CiFailed, now));
    FailingFits(cfg, it, it, snap, now);
    PlanFits(cfg, it, failed, snap, now);
    EmitSteps(failed, now);
    ParkedFailureFits(cfg, it, snap, now);
  }

  lemma ParkedFailureFits(cfg: Config, it: Item, snap: Snapshot, now: int)
    requires it.state.ReviewPending? && FeedbackSettled(it)
    ensures Fits(cfg, it, RespawnCiFixWorker(CountCiFailure(Enter(it, CiFailed, now)), now), snap, now)
  {
  }

  lemma RecoverFits(cfg: Config, it: Item, snap: Snapshot, before: seq<Action>, now: int)
    requires it.state.ReviewPending?
    ensures Fits(cfg, it, NudgeOrRecoverReview(cfg, it, snap, before, now), snap, now)
  {
    hide PlanRebaseConflictAction, PassAndEvaluate, InboxWaitStalled, Follows;
    SameFits(cfg, it, snap, now);
    PlanFits(cfg, it, it, snap, now);
    PlanKeeps(cfg, it, now);
    PlanRecords(cfg, it, now);
    var nudged := if snap.isMergeable.No? then PlanRebaseConflictAction(cfg, it, now) else Step(it, []);
    OnwardFits(cfg, it, ForgetReview(nudged.item), snap, before + nudged.actions, now);
  }

  lemma AwaitFits(cfg: Config, it: Item, snap: Snapshot, before: seq<Action>, now: int)
    requires it.state.ReviewPending?
    ensures Fits(cfg, it, AwaitFix(it, snap, before, now), snap, now)
  {
    hide RespawnForFeedback, Follows, Settles;
    var seen := if it.session.workspace.NoWorkspace? then it else CountLiveness(it, snap);
    var message := if it.feedback.message.NoMessage? then ReviewRequestedChanges else it.feedback.message;
    SameFits(cfg, it, snap, now);
    CountFits(cfg, it, snap, now);
    HeldSettles(it, snap, message, now);
    HeldRelaunches(cfg, it, seen, message, snap, now);
  }

  lemma SettledFits(cfg: Config, it: Item, snap: Snapshot, before: seq<Action>, now: int)
    requires it.state.ReviewPending? && FeedbackSettled(it)
    ensures Fits(cfg, it, HandleSettledReview(cfg, it, snap, before, now), snap, now)
  {
    hide EvaluateMerge, RespawnForFeedback, FailCiFromReview, AwaitFix, RestartCi, PassAndEvaluate, NudgeOrRecoverReview, Follows;
    SameFits(cfg, it, snap, now);
    EvaluateFits(cfg, it, snap, now);
    RespawnFits(cfg, it, if it.feedback.message.NoMessage? then GitHubRequestedChanges else it.feedback.message, snap, now);
    FailReviewFits(cfg, it, snap, before, now);
    AwaitFits(cfg, it, snap, before, now);
    RestartFits(cfg, it, snap, before, now);
    PassesFit(cfg, it, snap, before, now);
    RecoverFits(cfg, it, snap, before, now);
  }

  lemma AnsweredFits(cfg: Config, it: Item, snap: Snapshot, before: seq<Action>, now: int)
    requires it.state.ReviewPending?
    ensures Fits(cfg, it, HandleAnsweredReview(cfg, it, snap, before, now), snap, now)
  {
    hide ContinuePendingFeedbackHandoff, ResolvePendingFeedbackBatch, HandleSettledReview, HandoffPending, HasBatch, Follows;
    HandoffFits(cfg, it, snap, now);
    ResolveFits(cfg, it, snap, now);
    Destinations.HandoffEnds(it, snap, now);
    Destinations.ResolveEnds(it, snap, now);
    if FeedbackSettled(it) {
      SettledFits(cfg, it, snap, before, now);
    }
  }

  /** A signal of the worker takes the feedback and the review off the item, which `Follows` does not see. */
  lemma DoneFits(cfg: Config, it: Item, snap: Snapshot, now: int)
    requires it.state.ReviewPending?
    ensures Fits(cfg, it, HandleFeedbackDone(cfg, it, snap, now), snap, now)
  {
    hide HandleAnsweredReview, RestartCi, PassAndEvaluate, Follows;
    var done, signal := FinishFeedback(it), [ClearFeedbackDone(it.id)];
    RestartFits(cfg, done, snap, signal, now);
    PassesFit(cfg, done, snap, signal, now);
    AnsweredFits(cfg, done, snap, signal, now);
    var step := HandleFeedbackDone(cfg, it, snap, now);
    if step.Step? {
      DoneSame(cfg, it, step.item, snap, now);
    }
  }

  lemma DoneSame(cfg: Config, it: Item, next: Item, snap: Snapshot, now: int)
    requires it.state.ReviewPending? && Follows(cfg, FinishFeedback(it), next, snap, now)
    ensures Follows(cfg, it, next, snap, now)
  {
    hide HandoffPending, HasBatch, Overdue, DeadBy, Recoverable, InGrace, Heard, NoPrNews;
  }

  lemma PushbackFits(cfg: Config, it: Item, snap: Snapshot, now: int)
    requires it.state.ReviewPending?
    ensures Fits(cfg, it, TryHandlePushback(cfg, it, snap, now), snap, now)
  {
    hide ResumeCi, Follows, OnItsWay;
    if snap.pushback.Ref? {
      PushbackWay(it, snap, now);
      ResumeFits(cfg, it, RecordPushback(it, snap), snap, [ClearPushback(it.id)], now);
    }
  }

  lemma PushbackWay(it: Item, snap: Snapshot, now: int)
    requires it.state.ReviewPending? && snap.pushback.Ref?
    ensures OnItsWay(it, Enter(RecordPushback(it, snap), CiPending, now), snap, now)
  {
  }

  lemma ReviewPendingFits(cfg: Config, it: Item, snap: Snapshot, now: int)
    requires it.state.ReviewPending?
    ensures Fits(cfg, it, HandleReviewPending(cfg, it, snap, now), snap, now)
  {
    hide PassAndEvaluate, TryHandleNoNewInfo, TryHandlePushback, HandleFeedbackDone, HandleAnsweredReview, Follows;
    PassesFit(cfg, it, snap, [SetCommitStatus(it.id, it.pr.number, Pass)], now);
    SettleFits(cfg, it, snap, now);
    PushbackFits(cfg, it, snap, now);
    DoneFits(cfg, it, snap, now);
    AnsweredFits(cfg, it, snap, [], now);
  }

  lemma MergingFits(cfg: Config, it: Item, snap: Snapshot, now: int)
    requires it.state.Merging? && !it.session.parked
    ensures Fits(cfg, it, HandleMerging(cfg, it, snap, now), snap, now)
  {
    hide ContinuePendingFeedbackHandoff, ResolvePendingFeedbackBatch, Follows, Enter;
    HandoffFits(cfg, it, snap, now);
    ResolveFits(cfg, it, snap, now);
    SameFits(cfg, it, snap, now);
    ClosedFits(cfg, it, snap, now);
  }

  lemma ClosedFits(cfg: Config, it: Item, snap: Snapshot, now: int)
    requires it.state.Merging?
    ensures Follows(cfg, it, Enter(it, Stuck, now), snap, now)
  {
  }

  // ---- After the merge --------------------------------------------------------------------

  lemma PastMergeFits(cfg: Config, it: Item, snap: Snapshot, now: int)
    requires it.state.Merged? || it.state.ForwardFixPending?
    ensures it.state.Merged? ==> Fits(cfg, it, HandleMerged(cfg, it, snap, now), snap, now)
    ensures it.state.ForwardFixPending? ==> Fits(cfg, it, HandleForwardFixPending(it, snap, now), snap, now)
  {
    hide Follows, Enter;
    SameFits(cfg, it, snap, now);
    PastFit(cfg, it, it.repair, Done, snap, now);
    PastFit(cfg, it, it.repair.(failCount := it.repair.failCount + 1), FixForwardFailed, snap, now);
    if it.state.Merged? {
      PastFit(cfg, it, it.repair, ForwardFixPending, snap, now);
    }
  }

  lemma PastFit(cfg: Config, it: Item, repair: Repair, to: State, snap: Snapshot, now: int)
    requires it.state.Merged? || it.state.ForwardFixPending? || it.state.FixForwardFailed?
    requires repair == it.repair.(failCount := it.repair.failCount + (if to.FixForwardFailed? then 1 else 0))
    requires to.Done? || (to.FixForwardFailed? && to != it.state) || (to.ForwardFixPending? && it.state.Merged?) || to.Stuck? || to.FixingForward?
    ensures Follows(cfg, it, Enter(it.(repair := repair), to, now), snap, now)
  {
  }

  lemma FixFailedFits(cfg: Config, it: Item, snap: Snapshot, now: int)
    requires it.state.FixForwardFailed?
    ensures Fits(cfg, it, HandleFixForwardFailed(cfg, it, snap, now), snap, now)
  {
    hide Follows, Enter;
    SameFits(cfg, it, snap, now);
    PastFit(cfg, it, it.repair, Done, snap, now);
    PastFit(cfg, it, it.repair, Stuck, snap, now);
    PastFit(cfg, it, it.repair, FixingForward, snap, now);
  }

  lemma AdoptionWay(it: Item, snap: Snapshot, now: int)
    requires it.state.FixingForward? && snap.prNumber.Ref?
    ensures OnItsWay(it, Enter(AdoptRepairPr(it, snap.prNumber.n), CiPending, now), snap, now)
  {
  }

  lemma AdoptedFits(cfg: Config, it: Item, snap: Snapshot, now: int)
    requires it.state.FixingForward? && snap.prNumber.Ref?
    ensures Follows(cfg, it, Enter(AdoptRepairPr(it, snap.prNumber.n), Merged, now), snap, now)
  {
  }

  lemma FixingFits(cfg: Config, it: Item, snap: Snapshot, now: int)
    requires it.state.FixingForward?
    ensures Fits(cfg, it, HandleFixingForward(cfg, it, snap, now), snap, now)
  {
    hide HandleCiPending, Follows, OnItsWay, Enter, AdoptRepairPr;
    if RepairPrVisible(snap) {
      AdoptionWay(it, snap, now);
      AdoptedFits(cfg, it, snap, now);
      var pending := Enter(AdoptRepairPr(it, snap.prNumber.n), CiPending, now);
      AdoptedStates(it, snap.prNumber.n, now);
      CheckFits(cfg, pending, snap, now);
      ChainFits(cfg, it, pending, HandleCiPending(cfg, pending, snap, now), [], snap, now);
    } else {
      FixerFits(cfg, it, snap, now);
    }
  }

  lemma AdoptedStates(it: Item, pr: nat, now: int)
    ensures var pending := Enter(AdoptRepairPr(it, pr), CiPending, now); pending.state.CiPending? && !pending.session.parked
    ensures AdoptRepairPr(it, pr).state == it.state
  {
  }

  lemma FixerFits(cfg: Config, it: Item, snap: Snapshot, now: int)
    requires it.state.FixingForward? && !RepairPrVisible(snap)
    ensures Fits(cfg, it, HandleFixingForward(cfg, it, snap, now), snap, now)
  {
    hide HandleCiPending, Follows, Enter, LivenessOf;
    FixerSeenFits(cfg, it, snap, now);
  }

  lemma FixerSeenFits(cfg: Config, it: Item, snap: Snapshot, now: int)
    requires it.state.FixingForward?
    ensures var seen := CountLiveness(it, snap);
      && Follows(cfg, it, it, snap, now) && Follows(cfg, it, seen, snap, now) && Follows(cfg, it, Enter(seen, Stuck, now), snap, now)
      && Follows(cfg, it, Enter(it, Done, now), snap, now)
  {
    hide Follows, Enter;
    SameFits(cfg, it, snap, now);
    ReadingFits(cfg, it, snap, now);
    EndFits(cfg, it, CountLiveness(it, snap), Stuck, snap, now);
    EndFits(cfg, it, it, Done, snap, now);
  }

  // ---- A whole poll -----------------------------------------------------------------------

  lemma HandleFits(cfg: Config, it: Item, snap: Snapshot, now: int)
    requires ParkedOk(it)
    ensures Fits(cfg, it, Handle(cfg, it, snap, now), snap, now)
  {
    hide HandleLaunching, HandleImplementing, HandleCiPending, HandleCiPassed, HandleCiFailed, HandleRebasing, HandleReviewing,
         HandleReviewPending, HandleMerging, HandleFixingForward, HandleMerged, HandleForwardFixPending, HandleFixForwardFailed, Follows;
    match it.state {
      case Launching => LaunchingFits(cfg, it, snap, now);
      case Implementing => ImplementingFits(cfg, it, snap, now);
      case CiPending => CheckFits(cfg, it, snap, now);
      case CiPassed => PassedFits(cfg, it, snap, now);
      case CiFailed => FailedFits(cfg, it, snap, now);
      case Rebasing => RebasingFits(cfg, it, snap, now);
      case Reviewing => ReviewingFits(cfg, it, snap, now);
      case ReviewPending => ReviewPendingFits(cfg, it, snap, now);
      case Merging => MergingFits(cfg, it, snap, now);
      case Merged => PastMergeFits(cfg, it, snap, now);
      case ForwardFixPending => PastMergeFits(cfg, it, snap, now);
      case FixForwardFailed => FixFailedFits(cfg, it, snap, now);
      case FixingForward => FixingFits(cfg, it, snap, now);
      case _ => SameFits(cfg, it, snap, now);
    }
  }

  lemma OutsideFits(cfg: Config, it: Item, snap: Snapshot, now: int)
    requires ExternallyMerged(it, snap)
    ensures Fits(cfg, it, InterceptExternalMerge(it, snap, now), snap, now)
  {
    hide HandoffPending, HasBatch;
  }

  // What a poll takes in before it looks at the state.

  /** A commit has come since the rebase was asked for. */
  predicate ProgressSeen(it: Item, snap: Snapshot) {
    it.rebase.lastNudgeAt.At? && LastCommit(it, snap).At? && LastCommit(it, snap).ms > it.rebase.lastNudgeAt.ms
  }

  /** A mergeable pull request clears what is on record about rebases; a commit since starts the cooldown anew. */
  function RebaseSeen(it: Item, snap: Snapshot, now: int): Rebase {
    if MergedOutside(it, snap)
       || !(it.state.CiPending? || it.state.CiPassed? || it.state.CiFailed? || it.state.ReviewPending? || it.state.Reviewing?) then it.rebase
    else if snap.isMergeable.Yes? then Rebase(false, Undefined, 0, 0, it.rebase.workspace)
    else if ProgressSeen(it, snap) then
      it.rebase.(requested := false, nudgeCount := 0,
                 lastNudgeAt := if snap.lastCommitTime.At? then snap.lastCommitTime else if snap.eventTime.At? then snap.eventTime else At(now))
    else it.rebase
  }

  /** The item with the merge commit and the rebase progress of the poll. */
  function Noted(it: Item, snap: Snapshot, now: int): Item {
    it.(rebase := RebaseSeen(it, snap, now),
        repair := it.repair.(mergeCommit := if snap.mergeCommit.Ref? then snap.mergeCommit else it.repair.mergeCommit))
  }

  lemma SeenIsNoted(it: Item, snap: Snapshot, now: int)
    ensures ExternallyMerged(it, snap) <==> MergedOutside(it, snap)
    ensures ExternallyMerged(it, snap) ==> RecordMergeCommit(it, snap) == Noted(it, snap, now)
    ensures !ExternallyMerged(it, snap) ==>
      Seen(it, snap, now) == Noted(it, snap, now).(feedback := Seen(it, snap, now).feedback)
  {
  }

  /** Comments are not part of what `Follows` reads of the item. */
  lemma SeenFollows(cfg: Config, it: Item, seen: Item, next: Item, snap: Snapshot, now: int)
    requires seen == it.(feedback := seen.feedback) && Follows(cfg, seen, next, snap, now)
    ensures Follows(cfg, it, next, snap, now)
  {
    hide HandoffPending, HasBatch, Heard;
  }

  lemma TailFits(cfg: Config, it: Item, mid: Item, snap: Snapshot, now: int)
    requires Follows(cfg, it, mid, snap, now) && ParkedOk(mid)
    ensures Fits(cfg, it, Tail(mid, snap, now), snap, now)
  {
    hide Follows, Settles, ResolvePendingFeedbackBatch;
    ResolveFits(cfg, mid, snap, now);
    SameFits(cfg, mid, snap, now);
    var tail := Tail(mid, snap, now);
    if tail.Step? {
      Then(cfg, it, mid, tail.item, snap, now);
    }
  }

  /**
   * Main result: what every poll leaves of an item follows from where the item goes. Its clock
   * restarts with the state and runs on while it waits; a relaunched item hands its session to the
   * retry; a retry is counted exactly when a worker is given up, a CI failure exactly when it is seen
   * anew; the next worker is told to fix CI exactly when it is relaunched for it; a mergeable pull
   * request clears the record of its rebases, and every rebase on request was requested since.
   */
  lemma PollFollows(cfg: Config, it: Item, snap: Snapshot, now: int)
    requires ParkedOk(it) && TransitionItem(cfg, it, snap, now).Step?
    ensures Follows(cfg, Noted(it, snap, now), TransitionItem(cfg, it, snap, now).item, snap, now)
  {
    hide Follows, Seen, Noted, Handle, Tail, LifecycleSteps.Leaves, Sound, RecordMergeCommit, InterceptExternalMerge;
    SeenIsNoted(it, snap, now);
    var noted := Noted(it, snap, now);
    NotedState(it, snap, now);
    if ExternallyMerged(it, snap) {
      OutsideFits(cfg, noted, snap, now);
    } else {
      var seen := Seen(it, snap, now);
      SeenStands(it, snap, now);
      HandleFits(cfg, seen, snap, now);
      var body := Handle(cfg, seen, snap, now);
      BodyParks(cfg, it, snap, now);
      SeenFollows(cfg, noted, seen, body.item, snap, now);
      TailFits(cfg, noted, body.item, snap, now);
    }
  }

  lemma NotedState(it: Item, snap: Snapshot, now: int)
    ensures Noted(it, snap, now).state == it.state
  {
  }

  lemma BodyParks(cfg: Config, it: Item, snap: Snapshot, now: int)
    requires ParkedOk(it)
    ensures var body := Body(cfg, it, snap, now); body.Step? ==> ParkedOk(body.item)
  {
    hide Body, Sound;
    BodyLeaves(cfg, it, snap, now);
  }

  // ---- A pull request turns up ------------------------------------------------------------

  /** The pull request of a working item, or of its repair, shows up in this poll. */
  predicate PrTurnsUp(it: Item, snap: Snapshot) {
    && snap.prNumber.Ref?
    && ((it.state.Implementing? && snap.prState.Open?) || (it.state.FixingForward? && (snap.prState.Open? || snap.prState.PrMerged?)))
  }

  /** The pull requests the item had before: the one a repair replaces joins them, once. */
  function PriorAfter(it: Item, snap: Snapshot): seq<nat> {
    if it.state.FixingForward? && it.pr.number.Ref? && it.pr.number != snap.prNumber && it.pr.number.n !in it.pr.prior then
      it.pr.prior + [it.pr.number.n]
    else it.pr.prior
  }

  /** It is the item's pull request from now on; for a repair the counters of the old one start again. */
  predicate Adopted(it: Item, next: Item, snap: Snapshot) {
    && next.pr.number == snap.prNumber && next.pr.prior == PriorAfter(it, snap)
    && (it.state.FixingForward? ==>
          && next.repair.mergeCommit == Absent && next.mergeFailCount == 0
          && next.ci.failCount == (if next.state.CiFailed? then 1 else 0))
  }

  /** What the item carries on its way. */
  predicate CarriesOn(it: Item, mid: Item, snap: Snapshot) {
    && mid.pr.number == snap.prNumber && mid.pr.prior == PriorAfter(it, snap) && !mid.state.FixingForward? && !mid.state.CiFailed?
    && (it.state.FixingForward? ==> mid.repair.mergeCommit == Absent && mid.mergeFailCount == 0 && mid.ci.failCount == 0 && mid.state.CiPending?)
  }

  lemma CarriedAdopts(cfg: Config, it: Item, mid: Item, next: Item, snap: Snapshot, now: int)
    requires CarriesOn(it, mid, snap) && Follows(cfg, mid, next, snap, now)
    ensures Adopted(it, next, snap)
  {
    hide HandoffPending, HasBatch, Overdue, DeadBy, Recoverable, InGrace, Heard, NoPrNews;
  }

  lemma ResumedAdopts(cfg: Config, it: Item, mid: Item, snap: Snapshot, signal: seq<Action>, now: int)
    requires it.state.Implementing? && mid.state == it.state && mid.pr.number == snap.prNumber && mid.pr.prior == it.pr.prior
    ensures var step := ResumeCi(cfg, mid, snap, signal, now); step.Step? ==> Adopted(it, step.item, snap)
  {
    hide HandleCiPending, Follows, Adopted;
    var pending := Enter(mid, CiPending, now);
    CheckFits(cfg, pending, snap, now);
    var step := HandleCiPending(cfg, pending, snap, now);
    if step.Step? {
      CarriedAdopts(cfg, it, pending, step.item, snap, now);
    }
  }

  lemma WorkAdopts(cfg: Config, it: Item, snap: Snapshot, now: int)
    requires it.state.Implementing? && PrTurnsUp(it, snap)
    ensures var step := HandleImplementing(cfg, it, snap, now); step.Step? ==> Adopted(it, step.item, snap)
  {
    hide ResumeCi, HandleWorking, Adopted, Follows, TryHandleNoNewInfo;
    var tracked := TrackPr(it, snap);
    ResumedAdopts(cfg, it, tracked, snap, [], now);
    ResumedAdopts(cfg, it, RecordPushback(it, snap), snap, [ClearPushback(it.id)], now);
    ResumedAdopts(cfg, it, TrackPr(FinishFeedback(it), snap), snap, [ClearFeedbackDone(it.id)], now);
    SettleThrows(it, snap, now);
    if NoPrNews(it, snap) {
      WorkingFits(cfg, tracked, tracked, snap, now);
      var step := HandleWorking(cfg, tracked, snap, now);
      if step.Step? {
        CarriedAdopts(cfg, it, tracked, step.item, snap, now);
      }
    } else {
      NewsAnswers(cfg, it, snap, now);
    }
  }

  lemma RepairAdopts(cfg: Config, it: Item, snap: Snapshot, now: int)
    requires it.state.FixingForward? && PrTurnsUp(it, snap)
    ensures var step := HandleFixingForward(cfg, it, snap, now); step.Step? ==> Adopted(it, step.item, snap)
  {
    hide HandleCiPending, Follows;
    var pending := Enter(AdoptRepairPr(it, snap.prNumber.n), CiPending, now);
    CheckFits(cfg, pending, snap, now);
    var step := HandleCiPending(cfg, pending, snap, now);
    if step.Step? && snap.prState.Open? {
      CarriedAdopts(cfg, it, pending, step.item, snap, now);
    }
  }

  /** The last step leaves the pull request and the books of the item alone. */
  lemma TailAdopts(cfg: Config, it: Item, mid: Item, snap: Snapshot, now: int)
    requires Adopted(it, mid, snap) && ParkedOk(mid)
    ensures var tail := Tail(mid, snap, now); tail.Step? ==> Adopted(it, tail.item, snap)
  {
    hide ResolvePendingFeedbackBatch, Follows;
    ResolveFits(cfg, mid, snap, now);
  }

  /**
   * Main result: the pull request that turns up for a working item is the item's after the poll. One
   * that a forward fixer opened takes the place of the merged one, which is remembered once; the failed
   * merge commit is forgotten and the counters of CI failures and merge attempts start again.
   */
  lemma AdoptsExactly(cfg: Config, it: Item, snap: Snapshot, now: int)
    requires ParkedOk(it) && TransitionItem(cfg, it, snap, now).Step? && PrTurnsUp(it, snap)
    ensures Adopted(it, TransitionItem(cfg, it, snap, now).item, snap)
  {
    hide Adopted, Seen, Handle, Tail, LifecycleSteps.Leaves, Sound, HandleImplementing, HandleFixingForward;
    SeenStands(it, snap, now);
    var seen := Seen(it, snap, now);
    HandleIs(cfg, seen, snap, now);
    if it.state.Implementing? {
      WorkAdopts(cfg, seen, snap, now);
    } else {
      RepairAdopts(cfg, seen, snap, now);
    }
    BodyParks(cfg, it, snap, now);
    var body := Handle(cfg, seen, snap, now);
    AdoptedAlike(it, seen, body.item, snap);
    TailAdopts(cfg, it, body.item, snap, now);
  }

  lemma HandleIs(cfg: Config, it: Item, snap: Snapshot, now: int)
    ensures it.state.Implementing? ==> Handle(cfg, it, snap, now) == HandleImplementing(cfg, it, snap, now)
    ensures it.state.FixingForward? ==> Handle(cfg, it, snap, now) == HandleFixingForward(cfg, it, snap, now)
  {
    hide HandleImplementing, HandleFixingForward;
  }

  lemma AdoptedAlike(it: Item, seen: Item, next: Item, snap: Snapshot)
    requires seen == it.(rebase := seen.rebase, feedback := seen.feedback, repair := seen.repair)
    ensures Adopted(seen, next, snap) <==> Adopted(it, next, snap)
  {
  }
}
