/**
 * Which actions a poll asks for, read off where the item goes: retries, merges, notices of failed checks,
 * forward fixers, and the clean-up of sessions that are no longer needed (core/orchestrator.ts).
 */
module PollRequests {
  import opened OrchestratorTypes
  import opened OrchestratorGuards
  import opened Lifecycle
  import opened LifecycleFacts
  import opened LifecycleSteps
  import opened Destinations
  import opened PollEffects

  /** Which kinds of actions are among some actions of one item; `foreign` ones are for another item. */
  datatype Asked = Asked(
    retries: bool,
    merges: bool,
    notifies: bool,
    fixes: bool,
    closes: bool,
    settles: bool,
    endsReview: bool,
    endsRebase: bool,
    endsFix: bool,
    cleans: bool,
    foreign: bool)

  const NOTHING := Asked(false, false, false, false, false, false, false, false, false, false, false)

  function Or(a: Asked, b: Asked): Asked {
    Asked(a.retries || b.retries, a.merges || b.merges, a.notifies || b.notifies, a.fixes || b.fixes, a.closes || b.closes,
          a.settles || b.settles, a.endsReview || b.endsReview, a.endsRebase || b.endsRebase, a.endsFix || b.endsFix,
          a.cleans || b.cleans, a.foreign || b.foreign)
  }

  function AskedBy(id: Id, a: Action): Asked {
    Asked(a.Retry?, a.Merge?, a.NotifyCiFailure?, a.LaunchForwardFixer?, a.WorkspaceClose?, a.ClearNoNewInfo?,
          a.CleanReview?, a.CleanRebaser?, a.CleanForwardFixer?, a.Clean?, a.id != id || a.Launch? || a.RebaseRequest?)
  }

  function AskedIn(id: Id, actions: seq<Action>): Asked {
    if actions == [] then NOTHING else Or(AskedBy(id, actions[0]), AskedIn(id, actions[1..]))
  }

  lemma OrAssociates(a: Asked, b: Asked, c: Asked)
    ensures Or(a, Or(b, c)) == Or(Or(a, b), c)
  {
    var l, r := Or(a, Or(b, c)), Or(Or(a, b), c);
    assert l.retries == r.retries && l.merges == r.merges && l.notifies == r.notifies;
    assert l.fixes == r.fixes && l.closes == r.closes && l.settles == r.settles && l.endsReview == r.endsReview;
    assert l.endsRebase == r.endsRebase && l.endsFix == r.endsFix && l.cleans == r.cleans && l.foreign == r.foreign;
  }

  lemma OrNothing(a: Asked)
    ensures Or(NOTHING, a) == a && Or(a, NOTHING) == a
  {
  }

  lemma {:induction false} AskedConcat(id: Id, a: seq<Action>, b: seq<Action>)
    ensures AskedIn(id, a + b) == Or(AskedIn(id, a), AskedIn(id, b))
  {
    hide AskedBy;
    if a == [] {
      assert a + b == b;
      OrNothing(AskedIn(id, b));
    } else {
      assert (a + b)[1..] == a[1..] + b;
      AskedConcat(id, a[1..], b);
      OrAssociates(AskedBy(id, a[0]), AskedIn(id, a[1..]), AskedIn(id, b));
    }
  }

  lemma AskedOne(id: Id, a: Action)
    ensures AskedIn(id, [a]) == AskedBy(id, a)
  {
    assert [a][1..] == [];
  }

  /** No action of these asks for anything that is summed up. */
  predicate Plain(id: Id, actions: seq<Action>) {
    forall j :: 0 <= j < |actions| ==> AskedBy(id, actions[j]) == NOTHING
  }

  lemma {:induction false} PlainAsksNothing(id: Id, actions: seq<Action>)
    requires Plain(id, actions)
    ensures AskedIn(id, actions) == NOTHING
  {
    hide AskedBy;
    if actions != [] {
      PlainAsksNothing(id, actions[1..]);
    }
  }

  // ---- What follows from where an item goes -----------------------------------------------

  /** The review that was going on is over: a verdict, a drain, a dead reviewer, failed checks or a conflict. */
  predicate ReviewOver(cfg: Config, it: Item, snap: Snapshot) {
    || snap.reviewVerdict != NoVerdict || (it.review.completed && cfg.skipReview)
    || (it.review.workspace.Workspace? && DeadBy(it, snap, 1)) || snap.ciStatus.Fail? || snap.isMergeable.No?
  }

  /** A merging item asks again while its pull request is open, its checks pass and nothing human waits. */
  predicate AsksAgain(it: Item, snap: Snapshot) {
    snap.prState.Open? && snap.ciStatus.Pass? && FeedbackSettled(it)
  }

  /** The item got stuck while its session stood open: its worker was given up, or its checks failed too often and the worker is gone. */
  predicate StuckOpen(cfg: Config, it: Item, next: Item, snap: Snapshot) {
    && next.state.Stuck?
    && (it.state.Launching? || (it.state.Implementing? && NoPrNews(it, snap))
        || (it.state.CiFailed? && it.ci.failCount > cfg.maxCiRetries && !snap.workerAlive.Yes?))
  }

  /** The session is closed: the item got stuck, has merged, waits for a human only, or its worker has nothing new. */
  predicate Closes(cfg: Config, it: Item, next: Item, nothingNew: bool, snap: Snapshot) {
    || StuckOpen(cfg, it, next, snap)
    || (it.state.Merged? && it.session.workspace.Workspace?)
    || (next.state.ReviewPending? && if nothingNew && !it.state.Merging? then it.session.workspace.Workspace? else next.session.parked)
  }

  /** What the way of an unparked item asks for; what a parked one is closed for again is left open. */
  function AskedFor(cfg: Config, it: Item, next: Item, nothingNew: bool, snap: Snapshot, asked: Asked): Asked {
    Asked(Relaunched(it, next),
          next.state.Merging? && (it.state.Merging? ==> AsksAgain(it, snap)),
          next.state.CiFailed? && !snap.isMergeable.No? && (it.state.CiFailed? ==> !StillNotified(it)),
          it.state.FixForwardFailed? && next.state.FixingForward?,
          if it.session.parked then asked.closes else Closes(cfg, it, next, nothingNew, snap),
          nothingNew && !it.state.Merging? && next.state.ReviewPending?,
          it.state.Reviewing? && ReviewOver(cfg, it, snap),
          it.state.Rebasing? && !next.state.Rebasing?,
          it.state.FixingForward? && it.repair.workspace.Workspace? && !(snap.prNumber.Ref? && snap.prState.Open?) && !next.state.FixingForward?,
          false,
          false)
  }

  /** A batch that is left for the last step of the poll stops nothing that was asked for. */
  predicate LeavesBatch(it: Item, next: Item, asked: Asked, now: int) {
    BatchDue(next, now) ==>
      && !asked.settles && !next.state.Merging? && !next.state.CiPassed? && (next.state.ReviewPending? && next.session.parked ==> it.session.parked)
  }

  /** An item that comes to wait for nothing but a human is parked, unless changes are requested on GitHub. */
  predicate ParksForHuman(it: Item, next: Item, nothingNew: bool, snap: Snapshot) {
    && next.state.ReviewPending? && !it.state.ReviewPending? && !(nothingNew && !it.state.Merging?) && FeedbackSettled(next)
    && !(it.state.Reviewing? && snap.reviewVerdict.RequestChanges?) ==>
      (next.session.parked <==> snap.reviewDecision != ChangesRequested)
  }

  /** The comments that fell due are the message that goes out to the worker, armed if it lives, and the review is open again. */
  predicate Taken(it: Item, next: Item, snap: Snapshot, now: int) {
    && BatchDue(it, now) && next.feedback.batch.NoBatch?
    && next.feedback.needsResponse && next.feedback.message == BatchFeedback(it.feedback.batch.comments) && !next.review.completed
    && (next.feedback.armed <==> next.session.workspace.Workspace? && snap.workerAlive.Yes?)
  }

  /** No comment is lost: they wait on, or go out to the worker, or the worker has nothing new to do about them. */
  predicate CommentsKept(it: Item, next: Item, settles: bool, snap: Snapshot, now: int) {
    || next.feedback.batch == it.feedback.batch || Taken(it, next, snap, now)
    || (settles && next.state.ReviewPending? && next.feedback.batch.NoBatch?)
  }

  predicate Asks(cfg: Config, it: Item, step: Step, nothingNew: bool, snap: Snapshot, now: int) {
    step.Step? ==>
      var asked := AskedIn(it.id, step.actions);
      && asked == AskedFor(cfg, it, step.item, nothingNew, snap, asked)
      && ParksForHuman(it, step.item, nothingNew, snap) && CommentsKept(it, step.item, asked.settles, snap, now)
      && LeavesBatch(it, step.item, asked, now)
  }

  /** Nothing new to do about the commit the worker was asked about. */
  predicate NothingNew(it: Item, snap: Snapshot) {
    snap.noNewInfo && UnchangedSinceReview(it, snap)
  }

  // ---- Chains of handlers -----------------------------------------------------------------

  /** The item on its way through ci-pending or ci-passed, its session unparked. */
  predicate Underway(it: Item, mid: Item, snap: Snapshot) {
    && mid.id == it.id && (mid.state.CiPending? || mid.state.CiPassed?) && !mid.session.parked
    && mid.session.workspace == it.session.workspace && mid.feedback.batch == it.feedback.batch
    && (|| (it.state.Implementing? && !NoPrNews(it, snap)) || it.state.CiFailed? || it.state.CiPending? || it.state.Reviewing?
        || it.state.ReviewPending? || (it.state.FixingForward? && snap.prNumber.Ref? && snap.prState.Open?))
  }

  lemma ChainAsks(cfg: Config, it: Item, mid: Item, step: Step, before: seq<Action>, nothingNew: bool, snap: Snapshot, now: int)
    requires Underway(it, mid, snap) && Asks(cfg, mid, step, nothingNew, snap, now)
    requires step.Step? && it.state.CiFailed? ==> it.ci.failCount <= cfg.maxCiRetries && !step.item.state.CiFailed?
    requires AskedIn(it.id, before) == NOTHING.(endsReview := it.state.Reviewing? && ReviewOver(cfg, it, snap))
    ensures Asks(cfg, it, step.After(before), nothingNew, snap, now)
  {
    hide AskedIn, HandoffPending, ReviewOver, AskedFor, Or, NoPrNews;
    if step.Step? {
      AskedConcat(it.id, before, step.actions);
      ChainAskedFor(cfg, it, mid, step.item, nothingNew, snap, AskedIn(it.id, step.actions));
    }
  }

  lemma ChainAskedFor(cfg: Config, it: Item, mid: Item, next: Item, nothingNew: bool, snap: Snapshot, asked: Asked)
    requires Underway(it, mid, snap) && asked == AskedFor(cfg, mid, next, nothingNew, snap, asked)
    requires it.state.CiFailed? ==> it.ci.failCount <= cfg.maxCiRetries && !next.state.CiFailed?
    ensures var all := Or(NOTHING.(endsReview := it.state.Reviewing? && ReviewOver(cfg, it, snap)), asked);
      all == AskedFor(cfg, it, next, nothingNew, snap, all) && (all.settles <==> asked.settles)
  {
    hide HandoffPending, HasBatch, ReviewOver, StillNotified, DeadBy, NoPrNews;
  }

  // ---- Merge evaluation -------------------------------------------------------------------

  lemma SettleShape(it: Item, snap: Snapshot, now: int)
    requires it.state.CiPassed? || it.state.ReviewPending?
    ensures var step := TryHandleNoNewInfo(it, snap, now);
      && (step.Declined? <==> !NothingNew(it, snap))
      && (step.Step? ==>
            && step.item.state.ReviewPending? && !HasBatch(step.item) && step.item.feedback.batch.NoBatch?
            && step.actions == [ClearNoNewInfo(it.id)] + (if it.session.workspace.Workspace? && !it.session.parked then [WorkspaceClose(it.id)] else []))
  {
  }

  lemma SettleAsks(cfg: Config, it: Item, snap: Snapshot, now: int)
    requires it.state.CiPassed? || it.state.ReviewPending?
    ensures var step := TryHandleNoNewInfo(it, snap, now);
      (step.Declined? <==> !NothingNew(it, snap)) && (!step.Declined? ==> Asks(cfg, it, step, true, snap, now))
  {
    hide AskedIn, StillNotified, HandoffPending, HasBatch, NothingNew, TryHandleNoNewInfo, DeadBy;
    SettleShape(it, snap, now);
    AskedOne(it.id, ClearNoNewInfo(it.id));
    AskedOne(it.id, WorkspaceClose(it.id));
    AskedNone(it.id);
    AskedConcat(it.id, [ClearNoNewInfo(it.id)], [WorkspaceClose(it.id)]);
    AskedConcat(it.id, [ClearNoNewInfo(it.id)], []);
  }

  lemma AskedNone(id: Id)
    ensures AskedIn(id, []) == NOTHING
  {
  }

  lemma RespawnAsks(cfg: Config, it: Item, message: Message, snap: Snapshot, now: int)
    requires !it.state.Ready? && !it.state.Reviewing? && !it.state.Rebasing? && !it.state.Merged? && !it.state.FixingForward?
    ensures Asks(cfg, it, RespawnForFeedback(it, message, now), false, snap, now)
    ensures var step := RespawnForFeedback(it, message, now); step.Step? ==> step.item.state.Ready? && step.actions == [Retry(it.id)]
  {
    hide AskedIn, StillNotified, HandoffPending, HasBatch;
    AskedOne(it.id, Retry(it.id));
  }

  /** A step that retries exactly when it relaunches the item, and otherwise holds it unparked, or where it is. */
  lemma WaitsAsk(cfg: Config, it: Item, step: Step, snap: Snapshot, now: int)
    requires it.state.CiPending? || it.state.CiPassed? || it.state.ReviewPending? || it.state.Merging?
    requires step.Step? && (it.state.Merging? && step.item.state.Merging? ==> !AsksAgain(it, snap)) && (it.session.parked ==> it.state.ReviewPending?)
    requires AskedIn(it.id, step.actions) == NOTHING.(retries := step.item.state.Ready?)
    requires step.item.state.Ready? || step.item.state == it.state || step.item.state.ReviewPending?
    requires step.item.state.ReviewPending? && step.item.session.parked ==> it.session.parked
    requires BatchDue(step.item, now) ==> !step.item.state.CiPassed? && !step.item.state.Merging?
    requires step.item.state.ReviewPending? && !it.state.ReviewPending? ==> HandoffPending(step.item)
    requires CommentsKept(it, step.item, false, snap, now)
    ensures Asks(cfg, it, step, false, snap, now)
  {
    hide AskedIn, StillNotified, HandoffPending, HasBatch, AsksAgain;
  }

  /** A step that relaunches the worker, or holds the item in review-pending with at most a message to it. */
  predicate Holds(it: Item, step: Step) {
    && step.Step? && (step.item.state.ReviewPending? && step.item.session.parked ==> it.session.parked) && HandoffPending(step.item)
    && step.item.feedback.batch == it.feedback.batch
    && (|| (step.item.state.Ready? && step.actions == [Retry(it.id)])
        || (step.item.state.ReviewPending?
            && (step.actions == [] || (|step.actions| == 1 && step.actions[0].SendMessage? && step.actions[0].id == it.id))))
  }

  lemma HandoffShape(it: Item, snap: Snapshot, now: int)
    requires (it.state.CiPassed? || it.state.ReviewPending? || it.state.Merging?) && ParkedOk(it)
    ensures var step := ContinuePendingFeedbackHandoff(it, snap, now);
      (step.Declined? <==> !HandoffPending(it)) && (!step.Declined? ==> Holds(it, step))
  {
  }

  lemma HoldsAsk(cfg: Config, it: Item, step: Step, snap: Snapshot, now: int)
    requires it.state.CiPending? || it.state.CiPassed? || it.state.ReviewPending? || it.state.Merging?
    requires Holds(it, step) && (it.session.parked ==> it.state.ReviewPending?)
    ensures Asks(cfg, it, step, false, snap, now)
  {
    hide AskedIn, HasBatch, Asks, AsksAgain;
    AskedNone(it.id);
    AskedOne(it.id, Retry(it.id));
    if |step.actions| == 1 {
      AskedOne(it.id, step.actions[0]);
      assert step.actions == [step.actions[0]];
    }
    WaitsAsk(cfg, it, step, snap, now);
  }

  lemma HandoffAsks(cfg: Config, it: Item, snap: Snapshot, now: int)
    requires (it.state.CiPassed? || it.state.ReviewPending? || it.state.Merging?) && ParkedOk(it)
    ensures var step := ContinuePendingFeedbackHandoff(it, snap, now);
      (step.Declined? <==> !HandoffPending(it)) && (!step.Declined? ==> Asks(cfg, it, step, false, snap, now))
  {
    hide AskedIn, HasBatch, Asks, ContinuePendingFeedbackHandoff, Holds;
    HandoffShape(it, snap, now);
    if HandoffPending(it) {
      HoldsAsk(cfg, it, ContinuePendingFeedbackHandoff(it, snap, now), snap, now);
    }
  }

  /** A batch that is resolved: still gathering, waiting for the worker, delivered, or a relaunch. */
  predicate Resolves(it: Item, step: Step, snap: Snapshot, now: int) {
    && step.Step? && (step.item.state.ReviewPending? && step.item.session.parked ==> it.session.parked)
    && (step.item.state == it.state ==> step.item.session.parked == it.session.parked)
    && (|| (Taken(it, step.item, snap, now) && step.item.state.Ready? && it.state.ReviewPending? && step.actions == [Retry(it.id)])
        || (step.item.state == it.state && step.actions == [] && step.item.feedback == it.feedback && step.item.review == it.review
            && step.item.session.workspace == it.session.workspace
            && (BatchDue(it, now) ==> it.state.ReviewPending?))
        || ((step.item.state == it.state || ((it.state.CiPassed? || it.state.Merging?) && step.item.state.ReviewPending?))
            && Taken(it, step.item, snap, now) && HandoffPending(step.item)
            && |step.actions| == 1 && step.actions[0].SendMessage? && step.actions[0].id == it.id))
  }

  lemma ResolveShape(it: Item, snap: Snapshot, now: int)
    requires ParkedOk(it)
    ensures var step := ResolvePendingFeedbackBatch(it, snap, now);
      (step.Declined? <==> !HasBatch(it)) && (step.Step? ==> Resolves(it, step, snap, now))
  {
    hide DeliverBatch, TakeBatch;
    if BatchDue(it, now) {
      var seen := SampleForDelivery(it, snap);
      TakenShape(seen, snap);
      if !it.session.parked {
        DeliverShape(TakeBatch(seen, snap), snap, now);
      }
    }
  }

  lemma TakenShape(it: Item, snap: Snapshot)
    requires HasBatch(it)
    ensures var taken := TakeBatch(it, snap);
      && taken.id == it.id && taken.state == it.state && taken.session == it.session && taken.feedback.batch.NoBatch? && HandoffPending(taken)
      && taken.feedback.message == BatchFeedback(it.feedback.batch.comments) && !taken.feedback.armed
  {
  }

  lemma DeliverShape(it: Item, snap: Snapshot, now: int)
    requires !HasBatch(it) && !it.session.parked && HandoffPending(it)
    ensures var step := DeliverBatch(it, snap, now);
      && !step.Declined?
      && (step.Step? ==>
        && !step.item.session.parked && HandoffPending(step.item) && step.item.feedback.batch == it.feedback.batch
        && step.item.feedback.message == it.feedback.message && !step.item.review.completed
        && (step.item.feedback.armed <==> it.feedback.armed || (step.item.session.workspace.Workspace? && snap.workerAlive.Yes?))
        && (step.item.state == it.state || ((it.state.CiPassed? || it.state.Merging?) && step.item.state.ReviewPending?))
        && |step.actions| == 1 && step.actions[0].SendMessage? && step.actions[0].id == it.id)
  {
  }

  lemma ResolveAsks(cfg: Config, it: Item, snap: Snapshot, now: int)
    requires (it.state.CiPending? || it.state.CiPassed? || it.state.ReviewPending? || it.state.Merging?) && ParkedOk(it)
    ensures var step := ResolvePendingFeedbackBatch(it, snap, now);
      (step.Declined? <==> !HasBatch(it)) && (!step.Declined? ==> Asks(cfg, it, step, false, snap, now))
  {
    hide AskedIn, Asks, ResolvePendingFeedbackBatch, HandoffPending;
    ResolveShape(it, snap, now);
    var step := ResolvePendingFeedbackBatch(it, snap, now);
    AskedNone(it.id);
    AskedOne(it.id, Retry(it.id));
    if step.Step? {
      if |step.actions| == 1 {
        AskedOne(it.id, step.actions[0]);
        assert step.actions == [step.actions[0]];
      }
      WaitsAsk(cfg, it, step, snap, now);
    } else {
      NoStepAsks(cfg, it, step, snap, now);
    }
  }

  lemma NoStepAsks(cfg: Config, it: Item, step: Step, snap: Snapshot, now: int)
    ensures !step.Step? ==> forall nothingNew :: Asks(cfg, it, step, nothingNew, snap, now)
  {
  }

  /** The state a review round may lead to, and what it says about it. */
  predicate Rounds(it: Item, step: Step) {
    && step.Step? && step.item.feedback == it.feedback && (step.item.state.ReviewPending? ==> step.item == it)
    && (step.item.state == it.state || step.item.state.Stuck? || step.item.state.Reviewing?)
    && Plain(it.id, step.actions)
  }

  lemma RoundShape(cfg: Config, it: Item, snap: Snapshot, now: int)
    requires it.state.CiPassed? || it.state.ReviewPending?
    ensures Rounds(it, LaunchReviewRound(cfg, it, snap, now))
  {
  }

  lemma RoundAsks(cfg: Config, it: Item, snap: Snapshot, now: int)
    requires (it.state.CiPassed? || it.state.ReviewPending?) && !HasBatch(it) && ParkedOk(it)
    ensures Asks(cfg, it, LaunchReviewRound(cfg, it, snap, now), false, snap, now)
    ensures !LaunchReviewRound(cfg, it, snap, now).Declined?
  {
    hide AskedIn, StillNotified, HandoffPending, LaunchReviewRound, Plain;
    RoundShape(cfg, it, snap, now);
    PlainAsksNothing(it.id, LaunchReviewRound(cfg, it, snap, now).actions);
  }

  /** The item is held for a human, and parked and closed unless changes are asked for, or its merge is asked for. */
  predicate HeldOrMerged(it: Item, step: Step, snap: Snapshot) {
    && step.Step? && step.item.feedback == it.feedback
    && (|| (step.item.state.ReviewPending? && step.actions == [] && (step.item.session.parked ==> it.session.parked)
            && (it.state.CiPassed? ==> snap.reviewDecision == ChangesRequested))
        || (step.item.state.ReviewPending? && step.actions == [WorkspaceClose(it.id)] && step.item.session.parked
            && snap.reviewDecision != ChangesRequested)
        || (step.item.state.Merging? && |step.actions| == 1 && step.actions[0].Merge? && step.actions[0].id == it.id))
  }

  lemma HoldShape(cfg: Config, it: Item, snap: Snapshot, now: int)
    requires (it.state.CiPassed? || it.state.ReviewPending?) && ParkedOk(it) && it.review.completed
    ensures HeldOrMerged(it, HoldOrMerge(cfg, it, snap, now), snap)
  {
  }

  lemma HoldOrMergeAsks(cfg: Config, it: Item, snap: Snapshot, now: int)
    requires (it.state.CiPassed? || it.state.ReviewPending?) && !HasBatch(it) && ParkedOk(it) && it.review.completed
    ensures Asks(cfg, it, HoldOrMerge(cfg, it, snap, now), false, snap, now)
  {
    hide AskedIn, StillNotified, HandoffPending, HoldOrMerge;
    HoldShape(cfg, it, snap, now);
    var step := HoldOrMerge(cfg, it, snap, now);
    AskedNone(it.id);
    AskedOne(it.id, WorkspaceClose(it.id));
    if step.item.state.Merging? {
      AskedOne(it.id, step.actions[0]);
      assert step.actions == [step.actions[0]];
    }
  }

  lemma EvaluateAsks(cfg: Config, it: Item, snap: Snapshot, now: int)
    requires (it.state.CiPassed? || it.state.ReviewPending?) && ParkedOk(it)
    ensures Asks(cfg, it, EvaluateMerge(cfg, it, snap, now), NothingNew(it, snap), snap, now)
  {
    hide TryHandleNoNewInfo, ContinuePendingFeedbackHandoff, ResolvePendingFeedbackBatch, LaunchReviewRound, HoldOrMerge, Asks, NothingNew;
    SettleAsks(cfg, it, snap, now);
    HandoffAsks(cfg, it, snap, now);
    ResolveAsks(cfg, it, snap, now);
    NoStepAsks(cfg, it, EvaluateMerge(cfg, it, snap, now), snap, now);
    if !HasBatch(it) {
      var gated := it.(review := it.review.(completed := it.review.completed || cfg.skipReview));
      RoundAsks(cfg, gated, snap, now);
      GatedAsks(cfg, it, gated, LaunchReviewRound(cfg, gated, snap, now), snap, now);
      if gated.review.completed {
        HoldOrMergeAsks(cfg, gated, snap, now);
        GatedAsks(cfg, it, gated, HoldOrMerge(cfg, gated, snap, now), snap, now);
      }
    }
  }

  lemma GatedAsks(cfg: Config, it: Item, gated: Item, step: Step, snap: Snapshot, now: int)
    requires (it.state.CiPassed? || it.state.ReviewPending?) && gated == it.(review := gated.review)
    requires Asks(cfg, gated, step, false, snap, now)
    ensures Asks(cfg, it, step, false, snap, now)
  {
    hide AskedIn, HandoffPending;
  }

  lemma PassAsks(cfg: Config, it: Item, mid: Item, snap: Snapshot, before: seq<Action>, now: int)
    requires !mid.state.CiPassed? && mid.id == it.id && mid.session.workspace == it.session.workspace && mid.feedback.batch == it.feedback.batch
    requires it.state.CiPending? || it.state.Reviewing? || it.state.ReviewPending?
    requires AskedIn(it.id, before) == NOTHING.(endsReview := it.state.Reviewing? && ReviewOver(cfg, it, snap))
    ensures Asks(cfg, it, PassAndEvaluate(cfg, mid, snap, before, now), NothingNew(mid, snap), snap, now)
  {
    hide EvaluateMerge, Asks, ReviewOver, AskedIn;
    var passed := Transition(mid, CiPassed, now);
    if passed.Moved? {
      EvaluateAsks(cfg, passed.item, snap, now);
      ChainAsks(cfg, it, passed.item, EvaluateMerge(cfg, passed.item, snap, now), before, NothingNew(mid, snap), snap, now);
    } else {
      NoStepAsks(cfg, it, PassAndEvaluate(cfg, mid, snap, before, now), snap, now);
    }
  }

  // ---- CI ---------------------------------------------------------------------------------

  lemma PlanShape(cfg: Config, it: Item, now: int)
    ensures var plan := PlanRebaseConflictAction(cfg, it, now);
      && plan.Step? && plan.item == it.(rebase := plan.item.rebase)
      && AskedIn(it.id, plan.actions) == NOTHING
  {
    hide AskedBy;
    var plan := PlanRebaseConflictAction(cfg, it, now);
    AskedNone(it.id);
    if plan.actions != [] {
      PlainRebase(it.id, plan.actions[0]);
      AskedOne(it.id, plan.actions[0]);
    }
  }

  lemma PlainRebase(id: Id, a: Action)
    requires a.DaemonRebase? && a.id == id
    ensures AskedBy(id, a) == NOTHING
  {
  }

  /** The conflict of an item that fails its checks, or waits for them, is nudged without asking for anything else. */
  lemma ConflictAsks(cfg: Config, it: Item, mid: Item, before: seq<Action>, nothingNew: bool, snap: Snapshot, now: int)
    requires mid.id == it.id && (mid.state.CiFailed? || mid.state.CiPending?) && !mid.session.parked && snap.isMergeable.No?
    requires mid.feedback == it.feedback
    requires it.state.CiPending? || it.state.CiPassed? || it.state.CiFailed? || it.state.Reviewing? || it.state.ReviewPending?
    requires AskedIn(it.id, before) == NOTHING.(endsReview := it.state.Reviewing? && ReviewOver(cfg, it, snap))
    ensures Asks(cfg, it, PlanRebaseConflictAction(cfg, mid, now).After(before), nothingNew, snap, now)
    ensures before == [] ==> Asks(cfg, it, PlanRebaseConflictAction(cfg, mid, now), nothingNew, snap, now)
  {
    hide AskedIn, PlanRebaseConflictAction, StillNotified, HandoffPending, ReviewOver;
    var plan := PlanRebaseConflictAction(cfg, mid, now);
    PlanShape(cfg, mid, now);
    AskedConcat(it.id, before, plan.actions);
    AskedNone(it.id);
    assert [] + plan.actions == plan.actions;
  }

  lemma FailAsks(cfg: Config, it: Item, snap: Snapshot, now: int)
    requires it.state.CiPending? || it.state.CiPassed?
    ensures forall nothingNew :: Asks(cfg, it, FailCi(cfg, it, snap, now), nothingNew, snap, now)
  {
    hide AskedIn, PlanRebaseConflictAction, EmitCiFailureNotification, Asks, Enter;
    var failed := CountCiFailure(Enter(it, CiFailed, now));
    FailedShape(it, now);
    forall nothingNew ensures Asks(cfg, it, FailCi(cfg, it, snap, now), nothingNew, snap, now) {
      AskedNone(it.id);
      if snap.isMergeable.No? {
        ConflictAsks(cfg, it, failed, [], nothingNew, snap, now);
      } else {
        NoticeAsks(cfg, it, failed, [], nothingNew, snap, now);
      }
    }
  }

  lemma FailedShape(it: Item, now: int)
    ensures var failed := CountCiFailure(Enter(it, CiFailed, now));
      failed.id == it.id && failed.state.CiFailed? && !failed.session.parked && failed.feedback == it.feedback
  {
  }

  /** The failed checks are notified. */
  lemma NoticeAsks(cfg: Config, it: Item, failed: Item, before: seq<Action>, nothingNew: bool, snap: Snapshot, now: int)
    requires failed.id == it.id && failed.state.CiFailed? && !failed.session.parked && !snap.isMergeable.No? && failed.feedback == it.feedback
    requires it.state.CiPending? || it.state.CiPassed? || it.state.Reviewing? || it.state.ReviewPending?
    requires AskedIn(it.id, before) == NOTHING.(endsReview := it.state.Reviewing? && ReviewOver(cfg, it, snap))
    ensures var step := EmitCiFailureNotification(failed, now);
      Asks(cfg, it, step.After(before), nothingNew, snap, now) && (before == [] ==> Asks(cfg, it, step, nothingNew, snap, now))
  {
    hide AskedIn, StillNotified, HandoffPending, ReviewOver;
    var notice := NotifyCiFailure(failed.id, failed.pr.number);
    AskedOne(it.id, notice);
    AskedConcat(it.id, before, [notice]);
    assert [] + [notice] == [notice];
  }

  lemma RestartAsks(cfg: Config, it: Item, snap: Snapshot, before: seq<Action>, now: int)
    requires it.state.CiPassed? || it.state.CiFailed? || it.state.ReviewPending? || it.state.Rebasing?
    requires AskedIn(it.id, before) == NOTHING.(endsRebase := it.state.Rebasing?)
    ensures forall nothingNew :: Asks(cfg, it, RestartCi(it, snap, before, now), nothingNew, snap, now)
  {
    hide AskedIn, HandoffPending, HasBatch, StillNotified;
  }

  lemma CheckAsks(cfg: Config, it: Item, snap: Snapshot, now: int)
    requires it.state.CiPending? && !it.session.parked
    ensures Asks(cfg, it, HandleCiPending(cfg, it, snap, now), NothingNew(it, snap), snap, now)
  {
    hide FailCi, PlanRebaseConflictAction, PassAndEvaluate, ResolvePendingFeedbackBatch, Asks, NothingNew, AskedIn;
    AskedNone(it.id);
    StaysAsk(cfg, it, snap, now);
    FailAsks(cfg, it, snap, now);
    if snap.isMergeable.No? {
      ConflictAsks(cfg, it, it, [], NothingNew(it, snap), snap, now);
    }
    PassAsks(cfg, it, it, snap, [], now);
    WaitAsks(cfg, it, snap, now);
  }

  lemma StaysAsk(cfg: Config, it: Item, snap: Snapshot, now: int)
    requires it.state.CiPending? || it.state.Launching? || it.state.Implementing? || it.state.Rebasing?
    ensures Asks(cfg, it, Step(it, []), NothingNew(it, snap), snap, now)
  {
    hide AskedIn, HandoffPending, HasBatch, NothingNew;
    AskedNone(it.id);
  }

  lemma WaitAsks(cfg: Config, it: Item, snap: Snapshot, now: int)
    requires it.state.CiPending? && !it.session.parked
    ensures Asks(cfg, it, ResolvePendingFeedbackBatch(it, snap, now).OrStay(it), NothingNew(it, snap), snap, now)
  {
    hide ResolvePendingFeedbackBatch, AskedIn, HandoffPending, HasBatch, NothingNew, StillNotified;
    ResolveShape(it, snap, now);
    ResolveAsks(cfg, it, snap, now);
    StaysAsk(cfg, it, snap, now);
  }

  lemma PassedAsks(cfg: Config, it: Item, snap: Snapshot, now: int)
    requires it.state.CiPassed? && !it.session.parked
    ensures Asks(cfg, it, HandleCiPassed(cfg, it, snap, now), NothingNew(it, snap), snap, now)
  {
    hide FailCi, PlanRebaseConflictAction, EvaluateMerge, RestartCi, Asks, AskedIn, NothingNew;
    AskedNone(it.id);
    FailAsks(cfg, it, snap, now);
    RestartAsks(cfg, it, snap, [], now);
    if snap.isMergeable.No? {
      ConflictAsks(cfg, it, Enter(it, CiPending, now), [], NothingNew(it, snap), snap, now);
    }
    EvaluateAsks(cfg, it, snap, now);
  }

  lemma CiRespawnAsks(cfg: Config, it: Item, seen: Item, nothingNew: bool, snap: Snapshot, now: int)
    requires it.state.CiFailed? && seen.state == it.state && seen.id == it.id && seen.feedback == it.feedback
    ensures Asks(cfg, it, RespawnCiFixWorker(seen, now), nothingNew, snap, now)
  {
    hide AskedIn, StillNotified, HandoffPending, HasBatch;
    AskedOne(it.id, Retry(seen.id));
  }

  /** What the handler of failing checks says: the notice that is due, and perhaps a message. */
  lemma StillFailingAsks(cfg: Config, it: Item, nothingNew: bool, snap: Snapshot, now: int)
    requires it.state.CiFailed? && !it.session.parked && it.ci.failCount <= cfg.maxCiRetries && !snap.isMergeable.No?
    ensures Asks(cfg, it, HandleCiStillFailing(it, snap, now), nothingNew, snap, now)
  {
    hide ResolvePendingFeedbackBatch, RespawnCiFixWorker, AskedIn, StillNotified, CiFixUnacknowledged, Asks;
    NotifiedFits(cfg, it, snap, now);
    var notified := NotifyStillFailing(it, now);
    var seen := CountLiveness(notified.item, snap);
    CiRespawnAsks(cfg, it, seen, nothingNew, snap, now);
    ResolveShape(seen, snap, now);
    var resolved := ResolvePendingFeedbackBatch(seen, snap, now).OrStay(seen);
    NoticeShape(it, now);
    if resolved.Step? {
      MessageShape(seen, resolved, snap, now);
      AskedConcat(it.id, notified.actions, resolved.actions);
      FailingAsks(cfg, it, resolved.After(notified.actions), nothingNew, snap, now);
    } else {
      NoStepAsks(cfg, it, resolved.After(notified.actions), snap, now);
    }
  }

  lemma NoticeShape(it: Item, now: int)
    ensures NotifyStillFailing(it, now).Step?
    ensures AskedIn(it.id, NotifyStillFailing(it, now).actions) == NOTHING.(notifies := !StillNotified(it))
  {
    hide StillNotified, AskedIn;
    AskedNone(it.id);
    AskedOne(it.id, NotifyCiFailure(it.id, it.pr.number));
  }

  lemma MessageShape(it: Item, step: Step, snap: Snapshot, now: int)
    requires it.state.CiFailed? && (Resolves(it, step, snap, now) || step == Step(it, []))
    ensures step.Step? && step.item.state == it.state && AskedIn(it.id, step.actions) == NOTHING && CommentsKept(it, step.item, false, snap, now)
  {
    hide AskedIn, HasBatch;
    AskedNone(it.id);
    if |step.actions| == 1 {
      AskedOne(it.id, step.actions[0]);
      assert step.actions == [step.actions[0]];
    }
  }

  lemma FailingAsks(cfg: Config, it: Item, step: Step, nothingNew: bool, snap: Snapshot, now: int)
    requires it.state.CiFailed? && step.Step? && step.item.state.CiFailed? && !snap.isMergeable.No? && CommentsKept(it, step.item, false, snap, now)
    requires AskedIn(it.id, step.actions) == NOTHING.(notifies := !StillNotified(it)) || AskedIn(it.id, step.actions) == Or(NOTHING.(notifies := !StillNotified(it)), NOTHING)
    ensures Asks(cfg, it, step, nothingNew, snap, now)
  {
    hide AskedIn, StillNotified, HandoffPending, HasBatch;
  }

  lemma FailedAsks(cfg: Config, it: Item, snap: Snapshot, now: int)
    requires it.state.CiFailed? && !it.session.parked
    ensures Asks(cfg, it, HandleCiFailed(cfg, it, snap, now), NothingNew(it, snap), snap, now)
  {
    hide HandleCiPassed, RestartCi, PlanRebaseConflictAction, HandleCiStillFailing, Asks, NothingNew, AskedIn, Enter;
    AskedNone(it.id);
    if it.ci.failCount > cfg.maxCiRetries {
      BrokenAsks(cfg, it, NothingNew(it, snap), snap, now);
    } else if snap.ciStatus.Pass? {
      var passed := Enter(it, CiPassed, now);
      PassedMid(it, snap, now);
      PassedAsks(cfg, passed, snap, now);
      PassedStays(cfg, passed, snap, now);
      ChainAsks(cfg, it, passed, HandleCiPassed(cfg, passed, snap, now), [], NothingNew(it, snap), snap, now);
      NoBefore(cfg, it, HandleCiPassed(cfg, passed, snap, now), NothingNew(it, snap), snap, now);
    } else {
      RestartAsks(cfg, it, snap, [], now);
      if snap.isMergeable.No? {
        ConflictAsks(cfg, it, it, [], NothingNew(it, snap), snap, now);
      } else {
        StillFailingAsks(cfg, it, NothingNew(it, snap), snap, now);
      }
    }
  }

  lemma NoBefore(cfg: Config, it: Item, step: Step, nothingNew: bool, snap: Snapshot, now: int)
    requires Asks(cfg, it, step.After([]), nothingNew, snap, now)
    ensures Asks(cfg, it, step, nothingNew, snap, now)
  {
    hide AskedIn;
    if step.Step? {
      assert [] + step.actions == step.actions;
    }
  }

  lemma PassedMid(it: Item, snap: Snapshot, now: int)
    requires it.state.CiFailed?
    ensures var passed := Enter(it, CiPassed, now);
      Underway(it, passed, snap) && passed.state.CiPassed? && (NothingNew(passed, snap) <==> NothingNew(it, snap))
  {
  }

  lemma BrokenAsks(cfg: Config, it: Item, nothingNew: bool, snap: Snapshot, now: int)
    requires it.state.CiFailed? && it.ci.failCount > cfg.maxCiRetries && !it.session.parked
    ensures Asks(cfg, it, HandleCiFailed(cfg, it, snap, now), nothingNew, snap, now)
  {
    hide AskedIn, StillNotified, HandoffPending, HasBatch;
    AskedNone(it.id);
    AskedOne(it.id, WorkspaceClose(it.id));
  }

  // ---- A worker at work -------------------------------------------------------------------

  lemma ResumeAsks(cfg: Config, it: Item, mid: Item, snap: Snapshot, signal: seq<Action>, now: int)
    requires mid.state == it.state && mid.id == it.id && mid.session.workspace == it.session.workspace && mid.feedback.batch == it.feedback.batch
    requires (it.state.Implementing? && !NoPrNews(it, snap)) || it.state.ReviewPending?
    requires Plain(it.id, signal)
    ensures Asks(cfg, it, ResumeCi(cfg, mid, snap, signal, now), NothingNew(mid, snap), snap, now)
  {
    hide HandleCiPending, Asks, AskedIn, Underway, Plain, NothingNew;
    var pending := Enter(mid, CiPending, now);
    var sync := if mid.pr.baseBranch.Ref? then [SyncStackComments(mid.id)] else [];
    ResumeMid(it, mid, snap, now);
    CheckAsks(cfg, pending, snap, now);
    PlainAsksNothing(it.id, signal);
    SyncPlain(it.id, mid);
    PlainAsksNothing(it.id, sync);
    AskedConcat(it.id, signal, sync);
    OrNothing(NOTHING);
    ChainAsks(cfg, it, pending, HandleCiPending(cfg, pending, snap, now), signal + sync, NothingNew(mid, snap), snap, now);
  }

  lemma SyncPlain(id: Id, mid: Item)
    requires mid.id == id
    ensures Plain(id, if mid.pr.baseBranch.Ref? then [SyncStackComments(mid.id)] else [])
  {
  }

  lemma ResumeMid(it: Item, mid: Item, snap: Snapshot, now: int)
    requires mid.state == it.state && mid.id == it.id && mid.session.workspace == it.session.workspace && mid.feedback.batch == it.feedback.batch
    requires (it.state.Implementing? && !NoPrNews(it, snap)) || it.state.ReviewPending?
    ensures var pending := Enter(mid, CiPending, now);
      && Underway(it, pending, snap) && pending.state.CiPending? && !pending.session.parked && Legal(mid.state, CiPending)
      && (NothingNew(pending, snap) <==> NothingNew(mid, snap))
  {
  }

  lemma GiveUpAsks(cfg: Config, it: Item, seen: Item, nothingNew: bool, snap: Snapshot, now: int)
    requires it.state.Launching? || (it.state.Implementing? && NoPrNews(it, snap))
    requires seen.id == it.id && seen.state == it.state && seen.feedback == it.feedback && !it.session.parked
    ensures Asks(cfg, it, StuckOrRetry(cfg, seen, now), nothingNew, snap, now)
    ensures Asks(cfg, it, RecoverHeadlessWorker(seen, now), nothingNew, snap, now)
    ensures forall message :: Asks(cfg, it, RespawnForFeedback(seen, message, now), nothingNew, snap, now)
  {
    hide AskedIn, NoPrNews, Asks, Enter;
    EnterState(seen, now);
    EnterState(seen.(retryCount := seen.retryCount + 1, session := StashWorkspace(seen.session), pr := seen.pr.(lastCommitTime := Undefined)), now);
    EnterState(seen.(session := StashWorkspace(seen.session), pr := seen.pr.(lastCommitTime := Undefined)), now);
    LetGoAsks(cfg, it, StuckOrRetry(cfg, seen, now).item, nothingNew, snap, now);
    LetGoAsks(cfg, it, RecoverHeadlessWorker(seen, now).item, nothingNew, snap, now);
    forall message ensures Asks(cfg, it, RespawnForFeedback(seen, message, now), nothingNew, snap, now) {
      RespawnState(seen, message, now);
      LetGoAsks(cfg, it, RespawnForFeedback(seen, message, now).item, nothingNew, snap, now);
    }
  }

  lemma EnterState(it: Item, now: int)
    ensures Enter(it, Ready, now).state.Ready? && Enter(it, Stuck, now).state.Stuck? && Enter(it, Ready, now).id == it.id
    ensures Enter(it, Ready, now).feedback == it.feedback && Enter(it, Stuck, now).feedback == it.feedback
  {
  }

  lemma RespawnState(it: Item, message: Message, now: int)
    requires it.state.Launching? || it.state.Implementing?
    ensures var step := RespawnForFeedback(it, message, now); step.Step? && step.item.state.Ready? && step.actions == [Retry(it.id)]
    ensures RespawnForFeedback(it, message, now).item.feedback.batch == it.feedback.batch
  {
  }

  lemma LetGoAsks(cfg: Config, it: Item, next: Item, nothingNew: bool, snap: Snapshot, now: int)
    requires it.state.Launching? || (it.state.Implementing? && NoPrNews(it, snap))
    requires !it.session.parked && next.feedback.batch == it.feedback.batch
    ensures next.state.Ready? ==> Asks(cfg, it, Step(next, [Retry(it.id)]), nothingNew, snap, now)
    ensures next.state.Stuck? ==> Asks(cfg, it, Step(next, [WorkspaceClose(it.id)]), nothingNew, snap, now)
  {
    hide AskedIn, NoPrNews, HasBatch, HandoffPending;
    AskedOne(it.id, Retry(it.id));
    AskedOne(it.id, WorkspaceClose(it.id));
  }

  /** A working item that stays, or starts to work. */
  lemma WorksOnAsks(cfg: Config, it: Item, next: Item, nothingNew: bool, snap: Snapshot, now: int)
    requires it.state.Launching? || it.state.Implementing?
    requires next.state.Launching? || next.state.Implementing?
    requires !it.session.parked && next.feedback == it.feedback
    ensures Asks(cfg, it, Step(next, []), nothingNew, snap, now)
  {
    hide AskedIn, HasBatch;
    AskedNone(it.id);
  }

  lemma LaunchingAsks(cfg: Config, it: Item, nothingNew: bool, snap: Snapshot, now: int)
    requires it.state.Launching? && !it.session.parked
    ensures Asks(cfg, it, HandleLaunching(cfg, it, snap, now), nothingNew, snap, now)
  {
    hide StuckOrRetry, Asks;
    var seen := CountLiveness(it, snap);
    GiveUpAsks(cfg, it, seen, nothingNew, snap, now);
    WorksOnAsks(cfg, it, seen, nothingNew, snap, now);
    WorksOnAsks(cfg, it, OpenGraceWindow(cfg, seen, now), nothingNew, snap, now);
    WorksOnAsks(cfg, it, Enter(seen, Implementing, now), nothingNew, snap, now);
  }

  lemma WorkingAsks(cfg: Config, it: Item, tracked: Item, nothingNew: bool, snap: Snapshot, now: int)
    requires it.state.Implementing? && !it.session.parked && NoPrNews(it, snap)
    requires tracked.id == it.id && tracked.state == it.state && tracked.feedback == it.feedback
    ensures Asks(cfg, it, HandleWorking(cfg, tracked, snap, now), nothingNew, snap, now)
  {
    hide StuckOrRetry, RespawnForFeedback, RecoverHeadlessWorker, WorkTimedOut, InboxWaitStalled, Asks, NoPrNews;
    var seen := MarkWorking(tracked, snap, now);
    GiveUpAsks(cfg, it, seen, nothingNew, snap, now);
    WorksOnAsks(cfg, it, seen, nothingNew, snap, now);
    WorksOnAsks(cfg, it, OpenGraceWindow(cfg, seen, now), nothingNew, snap, now);
  }

  lemma OpenPrAsks(cfg: Config, it: Item, snap: Snapshot, now: int)
    requires it.state.Implementing? && snap.prNumber.Ref? && snap.prState.Open? && !NoPrNews(it, snap) && !WakesSpuriously(it, snap)
    ensures Asks(cfg, it, HandleOpenPr(cfg, it, snap, now), false, snap, now)
  {
    hide ResumeCi, Asks, AskedIn;
    ResumeAsks(cfg, it, TrackPr(it, snap), snap, [], now);
    ResumeAsks(cfg, it, RecordPushback(it, snap), snap, [ClearPushback(it.id)], now);
    ResumeAsks(cfg, it, TrackPr(FinishFeedback(it), snap), snap, [ClearFeedbackDone(it.id)], now);
  }

  lemma ImplementingAsks(cfg: Config, it: Item, snap: Snapshot, now: int)
    requires it.state.Implementing? && !it.session.parked && !WakesSpuriously(it, snap)
    ensures Asks(cfg, it, HandleImplementing(cfg, it, snap, now), NothingNew(it, snap), snap, now)
  {
    hide HandleOpenPr, HandleWorking, Asks;
    if snap.prNumber.Ref? && snap.prState.Open? {
      if NoPrNews(it, snap) {
        NoNewsDeclines(cfg, it, snap, now);
        NoStepAsks(cfg, it, HandleOpenPr(cfg, it, snap, now), snap, now);
        WorkingAsks(cfg, it, TrackPr(it, snap), NothingNew(it, snap), snap, now);
      } else {
        OpenPrAsks(cfg, it, snap, now);
        NewsAnswers(cfg, it, snap, now);
        assert !NothingNew(it, snap);
      }
    } else {
      WorkingAsks(cfg, it, it, NothingNew(it, snap), snap, now);
    }
  }

  // ---- Rebases and reviews ----------------------------------------------------------------

  lemma RebasingAsks(cfg: Config, it: Item, nothingNew: bool, snap: Snapshot, now: int)
    requires it.state.Rebasing? && !it.session.parked
    ensures Asks(cfg, it, HandleRebasing(it, snap, now), nothingNew, snap, now)
  {
    hide RestartCi, AskedIn, HandoffPending, HasBatch;
    AskedNone(it.id);
    AskedOne(it.id, CleanRebaser(it.id));
    RestartAsks(cfg, it, snap, [CleanRebaser(it.id)], now);
  }

  lemma EndsReview(id: Id, a: Action)
    requires a.id == id && (a.SetCommitStatus? || a.PostReview?)
    ensures AskedIn(id, [CleanReview(id)]) == NOTHING.(endsReview := true)
    ensures AskedIn(id, [CleanReview(id)] + [a]) == NOTHING.(endsReview := true)
  {
    AskedOne(id, CleanReview(id));
    AskedOne(id, a);
    AskedConcat(id, [CleanReview(id)], [a]);
  }

  lemma RunningAsks(cfg: Config, it: Item, snap: Snapshot, now: int)
    requires it.state.Reviewing? && !it.session.parked && snap.reviewVerdict.NoVerdict?
    ensures Asks(cfg, it, HandleReviewRunning(cfg, it, snap, now), NothingNew(it, snap), snap, now)
  {
    hide PassAndEvaluate, PlanRebaseConflictAction, Asks, AskedIn, Enter, CountCiFailure, NothingNew;
    var seen := if it.review.workspace.Workspace? then CountLiveness(it, snap) else it;
    var passes, fails := SetCommitStatus(it.id, it.pr.number, Pass), SetCommitStatus(it.id, it.pr.number, Fail);
    EndsReview(it.id, passes);
    EndsReview(it.id, fails);
    if ReviewOver(cfg, it, snap) {
      PassAsks(cfg, it, it, snap, [CleanReview(it.id)] + [passes], now);
      PassAsks(cfg, it, seen, snap, [CleanReview(it.id)] + [fails], now);
      SameNews(it, seen, snap);
      AbortAsks(cfg, it, seen, NothingNew(it, snap), snap, now);
    } else {
      ReviewGoesOnAsks(cfg, it, seen, NothingNew(it, snap), snap, now);
    }
  }

  lemma SameNews(it: Item, seen: Item, snap: Snapshot)
    requires seen.review == it.review
    ensures NothingNew(seen, snap) <==> NothingNew(it, snap)
  {
  }

  lemma ReviewGoesOnAsks(cfg: Config, it: Item, seen: Item, nothingNew: bool, snap: Snapshot, now: int)
    requires it.state.Reviewing? && seen.state == it.state && seen.feedback == it.feedback && !it.session.parked && !ReviewOver(cfg, it, snap)
    ensures Asks(cfg, it, Step(seen, []), nothingNew, snap, now)
  {
    hide AskedIn, HasBatch, ReviewOver;
    AskedNone(it.id);
  }

  lemma AbortAsks(cfg: Config, it: Item, seen: Item, nothingNew: bool, snap: Snapshot, now: int)
    requires it.state.Reviewing? && seen.id == it.id && seen.pr == it.pr && seen.feedback == it.feedback && !it.session.parked
    requires ReviewOver(cfg, it, snap)
    ensures var failed, clean := CountCiFailure(Enter(seen, CiFailed, now)), [CleanReview(it.id)];
      && (snap.isMergeable.No? ==> Asks(cfg, it, PlanRebaseConflictAction(cfg, failed, now).After(clean), nothingNew, snap, now))
      && (snap.isMergeable.No? ==> Asks(cfg, it, PlanRebaseConflictAction(cfg, Enter(seen, CiPending, now), now).After(clean), nothingNew, snap, now))
      && (!snap.isMergeable.No? ==> Asks(cfg, it, Step(failed, clean + [NotifyCiFailure(it.id, it.pr.number)]), nothingNew, snap, now))
  {
    hide PlanRebaseConflictAction, AskedIn, ReviewOver, HasBatch, HandoffPending;
    var failed := CountCiFailure(Enter(seen, CiFailed, now));
    AskedOne(it.id, CleanReview(it.id));
    AskedOne(it.id, NotifyCiFailure(it.id, it.pr.number));
    AskedConcat(it.id, [CleanReview(it.id)], [NotifyCiFailure(it.id, it.pr.number)]);
    if snap.isMergeable.No? {
      ConflictAsks(cfg, it, failed, [CleanReview(it.id)], nothingNew, snap, now);
      ConflictAsks(cfg, it, Enter(seen, CiPending, now), [CleanReview(it.id)], nothingNew, snap, now);
    }
  }

  /** What counts as nothing new: for an approval, the approved head itself. */
  predicate SeesNothingNew(it: Item, snap: Snapshot) {
    && snap.noNewInfo
    && (if it.state.Reviewing? && snap.reviewVerdict.Approve? then snap.headSha.Ref?
        else UnchangedSinceReview(it, snap) && !(it.state.Reviewing? && snap.reviewVerdict.RequestChanges?))
  }

  lemma ApprovalAsks(cfg: Config, it: Item, snap: Snapshot, now: int)
    requires it.state.Reviewing? && snap.reviewVerdict.Approve?
    ensures Asks(cfg, it, HandleReviewing(cfg, it, snap, now), SeesNothingNew(it, snap), snap, now)
  {
    hide PassAndEvaluate, Asks, AskedIn;
    var approved := it.(review := it.review.(completed := true, lastReviewed := snap.headSha, lastApproved := snap.headSha));
    var clean, post, status := CleanReview(it.id), PostReview(it.id, it.pr.number, Approve), SetCommitStatus(it.id, it.pr.number, Pass);
    EndsReview(it.id, post);
    AskedOne(it.id, status);
    AskedConcat(it.id, [clean] + [post], [status]);
    assert [clean] + [post] + [status] == [clean, post, status];
    PassAsks(cfg, it, approved, snap, [clean, post, status], now);
  }

  lemma SentBackSays(it: Item, now: int)
    ensures var message := ReviewFeedback(it.review.round);
      AskedIn(it.id, [CleanReview(it.id), PostReview(it.id, it.pr.number, RequestChanges), SetCommitStatus(it.id, it.pr.number, Fail),
                      NotifyReview(it.id, message)]) == NOTHING.(endsReview := true)
  {
    hide AskedIn;
    var message := ReviewFeedback(it.review.round);
    var clean, post := CleanReview(it.id), PostReview(it.id, it.pr.number, RequestChanges);
    var status, notice := SetCommitStatus(it.id, it.pr.number, Fail), NotifyReview(it.id, message);
    EndsReview(it.id, post);
    AskedOne(it.id, status);
    AskedOne(it.id, notice);
    AskedConcat(it.id, [status], [notice]);
    AskedConcat(it.id, [clean] + [post], [status] + [notice]);
    assert [clean] + [post] + ([status] + [notice]) == [clean, post, status, notice];
  }

  lemma SentBackAsks(cfg: Config, it: Item, snap: Snapshot, now: int)
    requires it.state.Reviewing? && snap.reviewVerdict.RequestChanges? && !it.session.parked
    ensures Asks(cfg, it, HandleReviewing(cfg, it, snap, now), false, snap, now)
  {
    hide AskedIn, HasBatch, HandoffPending;
    SentBackSays(it, now);
  }

  lemma ReviewingAsks(cfg: Config, it: Item, snap: Snapshot, now: int)
    requires it.state.Reviewing? && !it.session.parked
    ensures Asks(cfg, it, HandleReviewing(cfg, it, snap, now), SeesNothingNew(it, snap), snap, now)
  {
    hide PassAndEvaluate, HandleReviewRunning, Asks;
    match snap.reviewVerdict
    case Approve => ApprovalAsks(cfg, it, snap, now);
    case RequestChanges => SentBackAsks(cfg, it, snap, now);
    case NoVerdict => RunningAsks(cfg, it, snap, now);
  }

  lemma FailReviewAsks(cfg: Config, it: Item, snap: Snapshot, before: seq<Action>, now: int)
    requires it.state.ReviewPending? && !HasBatch(it) && Plain(it.id, before)
    ensures Asks(cfg, it, FailCiFromReview(cfg, it, snap, before, now), false, snap, now)
  {
    hide PlanRebaseConflictAction, Asks, EmitCiFailureNotification, RespawnCiFixWorker, Enter, AskedIn, Plain;
    var failed := CountCiFailure(Enter(it, CiFailed, now));
    FailedShape(it, now);
    PlainAsksNothing(it.id, before);
    if snap.isMergeable.No? {
      ConflictAsks(cfg, it, failed, before, false, snap, now);
    } else {
      NoticeAsks(cfg, it, failed, before, false, snap, now);
      ParkedFailureAsks(cfg, it, failed, snap, now);
    }
  }

  lemma ParkedFailureAsks(cfg: Config, it: Item, failed: Item, snap: Snapshot, now: int)
    requires it.state.ReviewPending? && failed.id == it.id && failed.state.CiFailed? && failed.feedback == it.feedback
    ensures Asks(cfg, it, RespawnCiFixWorker(failed, now), false, snap, now)
  {
    hide AskedIn, HasBatch, HandoffPending;
    AskedOne(it.id, Retry(it.id));
  }

  lemma RecoverAsks(cfg: Config, it: Item, snap: Snapshot, before: seq<Action>, now: int)
    requires it.state.ReviewPending? && FeedbackSettled(it) && Plain(it.id, before)
    ensures Asks(cfg, it, NudgeOrRecoverReview(cfg, it, snap, before, now), false, snap, now)
  {
    hide PlanRebaseConflictAction, PassAndEvaluate, InboxWaitStalled, Asks, AskedIn, Plain;
    var nudged := if snap.isMergeable.No? then PlanRebaseConflictAction(cfg, it, now) else Step(it, []);
    PlanShape(cfg, it, now);
    PlainAsksNothing(it.id, before);
    AskedNone(it.id);
    AskedConcat(it.id, before, nudged.actions);
    OrNothing(NOTHING);
    var mid := ForgetReview(nudged.item);
    PassAsks(cfg, it, mid, snap, before + nudged.actions, now);
    NudgedAsks(cfg, it, nudged.After(before), snap, now);
    assert !NothingNew(mid, snap);
  }

  lemma NudgedAsks(cfg: Config, it: Item, step: Step, snap: Snapshot, now: int)
    requires it.state.ReviewPending? && !HasBatch(it) && step.Step? && step.item == it.(rebase := step.item.rebase)
    requires AskedIn(it.id, step.actions) == NOTHING
    ensures Asks(cfg, it, step, false, snap, now)
  {
    hide AskedIn, HandoffPending;
  }

  lemma AwaitAsks(cfg: Config, it: Item, snap: Snapshot, before: seq<Action>, now: int)
    requires it.state.ReviewPending? && !HasBatch(it) && Plain(it.id, before)
    ensures Asks(cfg, it, AwaitFix(it, snap, before, now), false, snap, now)
  {
    hide RespawnForFeedback, AskedIn, Plain, HandoffPending;
    var seen := if it.session.workspace.NoWorkspace? then it else CountLiveness(it, snap);
    var message := if it.feedback.message.NoMessage? then ReviewRequestedChanges else it.feedback.message;
    PlainAsksNothing(it.id, before);
    RespawnAsks(cfg, seen, message, snap, now);
  }

  lemma SettledAsks(cfg: Config, it: Item, snap: Snapshot, before: seq<Action>, now: int)
    requires it.state.ReviewPending? && FeedbackSettled(it) && !NothingNew(it, snap) && Plain(it.id, before)
    ensures Asks(cfg, it, HandleSettledReview(cfg, it, snap, before, now), false, snap, now)
  {
    hide EvaluateMerge, RespawnForFeedback, FailCiFromReview, AwaitFix, RestartCi, PassAndEvaluate, NudgeOrRecoverReview, Asks, AskedIn, Plain,
         NothingNew;
    PlainAsksNothing(it.id, before);
    SettledStays(cfg, it, snap, before, now);
    EvaluateAsks(cfg, it, snap, now);
    BeforeAsks(cfg, it, EvaluateMerge(cfg, it, snap, now), before, snap, now);
    RespawnAsks(cfg, it, if it.feedback.message.NoMessage? then GitHubRequestedChanges else it.feedback.message, snap, now);
    FailReviewAsks(cfg, it, snap, before, now);
    AwaitAsks(cfg, it, snap, before, now);
    RestartAsks(cfg, it, snap, before, now);
    PassAsks(cfg, it, it, snap, before, now);
    RecoverAsks(cfg, it, snap, before, now);
  }

  lemma SettledStays(cfg: Config, it: Item, snap: Snapshot, before: seq<Action>, now: int)
    requires it.state.ReviewPending? && FeedbackSettled(it) && Plain(it.id, before)
    ensures Asks(cfg, it, Step(it, before), false, snap, now)
  {
    hide AskedIn, Plain, HandoffPending;
    PlainAsksNothing(it.id, before);
  }

  lemma BeforeAsks(cfg: Config, it: Item, step: Step, before: seq<Action>, snap: Snapshot, now: int)
    requires Asks(cfg, it, step, false, snap, now) && AskedIn(it.id, before) == NOTHING
    ensures Asks(cfg, it, step.After(before), false, snap, now)
  {
    hide AskedIn, HandoffPending, HasBatch;
    if step.Step? {
      AskedConcat(it.id, before, step.actions);
      OrNothing(AskedIn(it.id, step.actions));
    }
  }

  lemma AnsweredAsks(cfg: Config, it: Item, snap: Snapshot, before: seq<Action>, now: int)
    requires it.state.ReviewPending? && !NothingNew(it, snap) && Plain(it.id, before)
    ensures Asks(cfg, it, HandleAnsweredReview(cfg, it, snap, before, now), false, snap, now)
  {
    hide ContinuePendingFeedbackHandoff, ResolvePendingFeedbackBatch, HandleSettledReview, HandoffPending, HasBatch, Asks, Plain;
    HandoffAsks(cfg, it, snap, now);
    ResolveAsks(cfg, it, snap, now);
    NoStepAsks(cfg, it, HandleAnsweredReview(cfg, it, snap, before, now), snap, now);
    if FeedbackSettled(it) {
      SettledAsks(cfg, it, snap, before, now);
    }
  }

  lemma DoneAsks(cfg: Config, it: Item, snap: Snapshot, now: int)
    requires it.state.ReviewPending?
    ensures Asks(cfg, it, HandleFeedbackDone(cfg, it, snap, now), false, snap, now)
  {
    hide HandleAnsweredReview, RestartCi, PassAndEvaluate, Asks, AskedIn, Plain;
    var done, signal := FinishFeedback(it), [ClearFeedbackDone(it.id)];
    SignalPlain(it.id);
    PlainAsksNothing(it.id, signal);
    RestartAsks(cfg, done, snap, signal, now);
    PassAsks(cfg, done, done, snap, signal, now);
    AnsweredAsks(cfg, done, snap, signal, now);
    DoneSameAsks(cfg, it, HandleFeedbackDone(cfg, it, snap, now), snap, now);
  }

  lemma SignalPlain(id: Id)
    ensures Plain(id, [ClearFeedbackDone(id)]) && Plain(id, [ClearPushback(id)]) && Plain(id, [])
  {
  }

  lemma DoneSameAsks(cfg: Config, it: Item, step: Step, snap: Snapshot, now: int)
    requires it.state.ReviewPending? && Asks(cfg, FinishFeedback(it), step, false, snap, now)
    ensures Asks(cfg, it, step, false, snap, now)
  {
    hide AskedIn, HandoffPending;
  }

  lemma PushbackAsks(cfg: Config, it: Item, snap: Snapshot, now: int)
    requires it.state.ReviewPending?
    ensures Asks(cfg, it, TryHandlePushback(cfg, it, snap, now), false, snap, now)
  {
    hide ResumeCi, Asks, AskedIn, Plain;
    SignalPlain(it.id);
    ResumeAsks(cfg, it, RecordPushback(it, snap), snap, [ClearPushback(it.id)], now);
    NoStepAsks(cfg, it, TryHandlePushback(cfg, it, snap, now), snap, now);
  }

  lemma ReviewPendingAsks(cfg: Config, it: Item, snap: Snapshot, now: int)
    requires it.state.ReviewPending?
    ensures Asks(cfg, it, HandleReviewPending(cfg, it, snap, now), NothingNew(it, snap), snap, now)
  {
    hide PassAndEvaluate, TryHandleNoNewInfo, TryHandlePushback, HandleFeedbackDone, HandleAnsweredReview, Asks, AskedIn, Plain, NothingNew;
    var status := SetCommitStatus(it.id, it.pr.number, Pass);
    AskedOne(it.id, status);
    PassAsks(cfg, it, it, snap, [status], now);
    SettleAsks(cfg, it, snap, now);
    NoStepAsks(cfg, it, HandleReviewPending(cfg, it, snap, now), snap, now);
    PushbackAsks(cfg, it, snap, now);
    DoneAsks(cfg, it, snap, now);
    SignalPlain(it.id);
    if !NothingNew(it, snap) {
      AnsweredAsks(cfg, it, snap, [], now);
    }
  }

  lemma MergingAsks(cfg: Config, it: Item, snap: Snapshot, now: int)
    requires it.state.Merging? && !it.session.parked
    ensures Asks(cfg, it, HandleMerging(cfg, it, snap, now), NothingNew(it, snap), snap, now)
  {
    hide ContinuePendingFeedbackHandoff, ResolvePendingFeedbackBatch, Asks, HandoffPending, HasBatch, NothingNew;
    HandoffAsks(cfg, it, snap, now);
    ResolveAsks(cfg, it, snap, now);
    NoStepAsks(cfg, it, HandleMerging(cfg, it, snap, now), snap, now);
    if HandoffPending(it) {
      MergingNews(cfg, it, ContinuePendingFeedbackHandoff(it, snap, now), snap, now);
    } else if HasBatch(it) {
      MergingNews(cfg, it, ResolvePendingFeedbackBatch(it, snap, now), snap, now);
    } else {
      MergeAgainAsks(cfg, it, NothingNew(it, snap), snap, now);
    }
  }

  /** A merging item is not asked whether there is anything new. */
  lemma MergingNews(cfg: Config, it: Item, step: Step, snap: Snapshot, now: int)
    requires it.state.Merging? && Asks(cfg, it, step, false, snap, now)
    ensures forall nothingNew :: Asks(cfg, it, step, nothingNew, snap, now)
  {
    hide AskedIn, HandoffPending, HasBatch, AsksAgain;
  }

  lemma MergeAgainAsks(cfg: Config, it: Item, nothingNew: bool, snap: Snapshot, now: int)
    requires it.state.Merging? && !it.session.parked && FeedbackSettled(it)
    ensures snap.prState.Closed? ==> Asks(cfg, it, Step(Enter(it, Stuck, now), []), nothingNew, snap, now)
    ensures snap.prState.Open? && snap.ciStatus.Pass? ==>
      Asks(cfg, it, Step(it, [Merge(it.id, it.pr.number, cfg.mergeStrategy.Bypass?)]), nothingNew, snap, now)
    ensures !(snap.prState.Open? && snap.ciStatus.Pass?) ==> Asks(cfg, it, Step(it, []), nothingNew, snap, now)
  {
    hide AskedIn, HandoffPending, HasBatch;
    AskedNone(it.id);
    AskedOne(it.id, Merge(it.id, it.pr.number, cfg.mergeStrategy.Bypass?));
  }

  // ---- After the merge --------------------------------------------------------------------

  /** The item stays or moves on behind its merge, and says what belongs to where it comes from and goes. */
  predicate PastMergeStep(it: Item, step: Step) {
    && step.Step? && step.item.feedback == it.feedback
    && (|| step.item.state.Merged? || step.item.state.ForwardFixPending? || step.item.state.FixForwardFailed?
        || step.item.state.FixingForward? || step.item.state.Done? || step.item.state.Stuck?)
    && step.actions == (if it.state.Merged? && it.session.workspace.Workspace? then [WorkspaceClose(it.id)]
                        else if it.state.FixForwardFailed? && step.item.state.FixingForward? then [LaunchForwardFixer(it.id)] else [])
  }

  lemma PastMergeShape(cfg: Config, it: Item, snap: Snapshot, now: int)
    requires it.state.Merged? || it.state.ForwardFixPending? || it.state.FixForwardFailed?
    ensures PastMergeStep(it, Handle(cfg, it, snap, now))
  {
    hide Enter;
    PastMergeStates(it, now);
    PastMergeStates(it.(repair := it.repair.(failCount := it.repair.failCount + 1)), now);
  }

  lemma PastMergeStates(it: Item, now: int)
    ensures Enter(it, Done, now).state.Done? && Enter(it, FixForwardFailed, now).state.FixForwardFailed? && Enter(it, Stuck, now).state.Stuck?
    ensures Enter(it, ForwardFixPending, now).state.ForwardFixPending? && Enter(it, FixingForward, now).state.FixingForward?
    ensures forall to :: Enter(it, to, now).feedback == it.feedback
  {
  }

  lemma PastMergeAsks(cfg: Config, it: Item, nothingNew: bool, snap: Snapshot, now: int)
    requires !it.session.parked && (it.state.Merged? || it.state.ForwardFixPending? || it.state.FixForwardFailed?)
    ensures Asks(cfg, it, Handle(cfg, it, snap, now), nothingNew, snap, now)
  {
    hide AskedIn, HandoffPending, HasBatch, Handle, NoPrNews, StillNotified, ReviewOver, AsksAgain;
    PastMergeShape(cfg, it, snap, now);
    AskedNone(it.id);
    AskedOne(it.id, WorkspaceClose(it.id));
    AskedOne(it.id, LaunchForwardFixer(it.id));
  }

  lemma FixingAsks(cfg: Config, it: Item, snap: Snapshot, now: int)
    requires it.state.FixingForward? && !it.session.parked
    ensures Asks(cfg, it, HandleFixingForward(cfg, it, snap, now), NothingNew(it, snap), snap, now)
  {
    hide HandleCiPending, Asks, Underway, Enter, AdoptRepairPr, AskedIn, NothingNew;
    if snap.prNumber.Ref? && snap.prState.Open? {
      var pending := Enter(AdoptRepairPr(it, snap.prNumber.n), CiPending, now);
      AdoptedStates(it, snap.prNumber.n, now);
      AdoptedMid(it, snap, now);
      AskedNone(it.id);
      CheckAsks(cfg, pending, snap, now);
      ChainAsks(cfg, it, pending, HandleCiPending(cfg, pending, snap, now), [], NothingNew(it, snap), snap, now);
      NoBefore(cfg, it, HandleCiPending(cfg, pending, snap, now), NothingNew(it, snap), snap, now);
    } else {
      FixerAsks(cfg, it, NothingNew(it, snap), snap, now);
    }
  }

  lemma AdoptedMid(it: Item, snap: Snapshot, now: int)
    requires it.state.FixingForward? && snap.prNumber.Ref? && snap.prState.Open?
    ensures var pending := Enter(AdoptRepairPr(it, snap.prNumber.n), CiPending, now);
      Underway(it, pending, snap) && (NothingNew(pending, snap) <==> NothingNew(it, snap))
  {
  }

  lemma FixerAsks(cfg: Config, it: Item, nothingNew: bool, snap: Snapshot, now: int)
    requires it.state.FixingForward? && !it.session.parked && !(snap.prNumber.Ref? && snap.prState.Open?)
    ensures Asks(cfg, it, HandleFixingForward(cfg, it, snap, now), nothingNew, snap, now)
  {
    hide HandleFixingForward, AskedIn, HandoffPending, HasBatch;
    FixerShape(cfg, it, snap, now);
    AskedNone(it.id);
    AskedOne(it.id, CleanForwardFixer(it.id));
  }

  lemma FixerShape(cfg: Config, it: Item, snap: Snapshot, now: int)
    requires it.state.FixingForward? && !(snap.prNumber.Ref? && snap.prState.Open?)
    ensures var step := HandleFixingForward(cfg, it, snap, now);
      && step.Step? && step.item.feedback == it.feedback && (step.item.state.FixingForward? || step.item.state.Merged? || step.item.state.Done? || step.item.state.Stuck?)
      && step.actions == (if it.repair.workspace.Workspace? && !step.item.state.FixingForward? then [CleanForwardFixer(it.id)] else [])
  {
    hide HandleCiPending;
  }

  // ---- A whole poll -----------------------------------------------------------------------

  lemma IdleAsks(cfg: Config, it: Item, nothingNew: bool, snap: Snapshot, now: int)
    requires it.state.Queued? || it.state.Ready? || it.state.Done? || it.state.Blocked? || it.state.Stuck?
    ensures Asks(cfg, it, Step(it, []), nothingNew, snap, now)
  {
    hide AskedIn, HasBatch;
    AskedNone(it.id);
  }

  lemma HandleAsks(cfg: Config, it: Item, snap: Snapshot, now: int)
    requires ParkedOk(it) && !WakesSpuriously(it, snap)
    ensures Asks(cfg, it, Handle(cfg, it, snap, now), SeesNothingNew(it, snap), snap, now)
  {
    hide HandleLaunching, HandleImplementing, HandleCiPending, HandleCiPassed, HandleCiFailed, HandleRebasing, HandleReviewing,
         HandleReviewPending, HandleMerging, HandleFixingForward, HandleMerged, HandleForwardFixPending, HandleFixForwardFailed, Asks;
    match it.state {
      case Launching => LaunchingAsks(cfg, it, SeesNothingNew(it, snap), snap, now);
      case Implementing => ImplementingAsks(cfg, it, snap, now);
      case CiPending => CheckAsks(cfg, it, snap, now);
      case CiPassed => PassedAsks(cfg, it, snap, now);
      case CiFailed => FailedAsks(cfg, it, snap, now);
      case Rebasing => RebasingAsks(cfg, it, SeesNothingNew(it, snap), snap, now);
      case Reviewing => ReviewingAsks(cfg, it, snap, now);
      case ReviewPending => ReviewPendingAsks(cfg, it, snap, now);
      case Merging => MergingAsks(cfg, it, snap, now);
      case Merged => PastMergeAsks(cfg, it, SeesNothingNew(it, snap), snap, now);
      case ForwardFixPending => PastMergeAsks(cfg, it, SeesNothingNew(it, snap), snap, now);
      case FixForwardFailed => PastMergeAsks(cfg, it, SeesNothingNew(it, snap), snap, now);
      case FixingForward => FixingAsks(cfg, it, snap, now);
      case _ => IdleAsks(cfg, it, SeesNothingNew(it, snap), snap, now);
    }
  }

  /** The last step adds a relaunch or a message, and takes nothing back. */
  lemma TailAsks(cfg: Config, it: Item, body: Step, nothingNew: bool, snap: Snapshot, now: int)
    requires body.Step? && Asks(cfg, it, body, nothingNew, snap, now) && ParkedOk(body.item) && body.item.id == it.id
    requires it.state.Ready? ==> body.item.state.Ready?
    ensures var step := Tail(body.item, snap, now).After(body.actions);
      step.Step? ==>
        var asked := AskedIn(it.id, step.actions);
        && asked == AskedFor(cfg, it, step.item, nothingNew, snap, asked)
        && ParksForHuman(it, step.item, nothingNew, snap) && CommentsKept(it, step.item, asked.settles, snap, now)
  {
    hide AskedIn, HasBatch, HandoffPending, ResolvePendingFeedbackBatch, AskedFor, ParksForHuman, Or;
    ResolveShape(body.item, snap, now);
    var tail := Tail(body.item, snap, now);
    if tail.Step? {
      AskedNone(it.id);
      AskedOne(it.id, Retry(it.id));
      if |tail.actions| == 1 {
        AskedOne(it.id, tail.actions[0]);
        assert tail.actions == [tail.actions[0]];
      }
      AskedConcat(it.id, body.actions, tail.actions);
      var asked := AskedIn(it.id, body.actions);
      OrNothing(asked);
      if tail.item.state == body.item.state {
        SameAsked(cfg, it, body.item, tail.item, nothingNew, snap, asked);
      } else {
        RelaunchAsked(cfg, it, body.item, tail.item, nothingNew, snap, asked);
        OrRetry(asked);
      }
      ParksOn(it, body.item, tail, nothingNew, snap, now);
      SettlesThere(cfg, it, body.item, nothingNew, snap, asked);
      KeptOn(it, body.item, tail, asked.settles, snap, now);
    }
  }

  /** The item waits in review-pending for a worker that is there and does not answer. */
  predicate Unreached(it: Item, snap: Snapshot) {
    it.state.ReviewPending? && it.session.workspace.Workspace? && !it.session.parked && !snap.workerAlive.Yes?
  }

  /** Only for such a worker do comments that are due still wait after a poll. */
  lemma TailReaches(it: Item, snap: Snapshot, now: int)
    requires ParkedOk(it)
    ensures var tail := Tail(it, snap, now); tail.Step? && BatchDue(tail.item, now) ==> Unreached(tail.item, snap)
  {
    hide DeliverBatch;
    if BatchDue(it, now) && !it.session.parked {
      var seen := SampleForDelivery(it, snap);
      TakenShape(seen, snap);
      DeliverShape(TakeBatch(seen, snap), snap, now);
    }
  }

  lemma SettlesThere(cfg: Config, it: Item, mid: Item, nothingNew: bool, snap: Snapshot, asked: Asked)
    requires asked == AskedFor(cfg, it, mid, nothingNew, snap, asked)
    ensures asked.settles ==> mid.state.ReviewPending?
  {
  }

  lemma KeptOn(it: Item, mid: Item, tail: Step, settles: bool, snap: Snapshot, now: int)
    requires CommentsKept(it, mid, settles, snap, now) && (Resolves(mid, tail, snap, now) || tail == Step(mid, []))
    requires settles ==> mid.state.ReviewPending?
    ensures CommentsKept(it, tail.item, settles, snap, now)
  {
  }

  lemma OrRetry(asked: Asked)
    ensures Or(asked, NOTHING.(retries := true)) == asked.(retries := true)
  {
  }

  lemma ParksOn(it: Item, mid: Item, tail: Step, nothingNew: bool, snap: Snapshot, now: int)
    requires ParksForHuman(it, mid, nothingNew, snap) && (Resolves(mid, tail, snap, now) || tail == Step(mid, []))
    ensures ParksForHuman(it, tail.item, nothingNew, snap)
  {
  }

  lemma SameAsked(cfg: Config, it: Item, mid: Item, next: Item, nothingNew: bool, snap: Snapshot, asked: Asked)
    requires next.state == mid.state && next.session.parked == mid.session.parked
    ensures AskedFor(cfg, it, next, nothingNew, snap, asked) == AskedFor(cfg, it, mid, nothingNew, snap, asked)
  {
    hide NoPrNews, StillNotified, ReviewOver, AsksAgain;
  }

  lemma RelaunchAsked(cfg: Config, it: Item, mid: Item, next: Item, nothingNew: bool, snap: Snapshot, asked: Asked)
    requires mid.state.ReviewPending? && next.state.Ready? && !it.state.Ready?
    requires asked == AskedFor(cfg, it, mid, nothingNew, snap, asked) && !asked.settles && (mid.session.parked ==> it.session.parked)
    ensures var more := asked.(retries := true); more == AskedFor(cfg, it, next, nothingNew, snap, more)
  {
    hide NoPrNews, StillNotified, ReviewOver, AsksAgain;
  }

  /** Rebase tracking and the merge commit of the poll ask for nothing. */
  lemma SeenAsksAlike(cfg: Config, held: Item, seen: Item, next: Item, nothingNew: bool, snap: Snapshot, asked: Asked)
    requires SeenAs(held, seen, snap)
    ensures AskedFor(cfg, seen, next, nothingNew, snap, asked) == AskedFor(cfg, held, next, nothingNew, snap, asked)
    ensures SeesNothingNew(seen, snap) <==> SeesNothingNew(held, snap)
  {
  }

  /**
   * Main result: which actions every poll asks for follows from where the item goes. It retries a
   * worker exactly when it relaunches the item, merges exactly when the item starts to merge or is
   * still to be merged, notifies a failed check, launches a forward fixer, ends a review, a rebase or
   * a fix exactly when they are over, and closes a session exactly when nobody needs it any more; an
   * item that comes to wait for a human only is parked, and one merged by somebody else only cleaned up.
   */
  lemma PollAsks(cfg: Config, it: Item, snap: Snapshot, now: int)
    requires ParkedOk(it) && TransitionItem(cfg, it, snap, now).Step?
    ensures var step := TransitionItem(cfg, it, snap, now);
      var held, asked := IngestPendingFeedbackBatch(it, snap), AskedIn(it.id, step.actions);
      if MergedOutside(it, snap) then
        step.actions == [Clean(it.id)] + (if it.review.workspace.Workspace? then [CleanReview(it.id)] else [])
                        + (if it.repair.workspace.Workspace? then [CleanForwardFixer(it.id)] else [])
      else
        && asked == AskedFor(cfg, held, step.item, SeesNothingNew(held, snap), snap, asked)
        && ParksForHuman(it, step.item, SeesNothingNew(held, snap), snap) && CommentsKept(held, step.item, asked.settles, snap, now)
        && (BatchDue(step.item, now) ==> Unreached(step.item, snap))
  {
    hide Seen, Handle, Tail, IngestPendingFeedbackBatch, Asks, AskedIn, AskedFor, SeenAs, SeesNothingNew, Sound, LifecycleSteps.Leaves;
    ThrowsExactly(cfg, it, snap, now);
    SeenIs(it, snap, now);
    if ExternallyMerged(it, snap) {
      OutsideEnds(it, snap, now);
    } else {
      var held, seen := IngestPendingFeedbackBatch(it, snap), Seen(it, snap, now);
      SeenStands(it, snap, now);
      HandleAsks(cfg, seen, snap, now);
      var body := Handle(cfg, seen, snap, now);
      BodyParks(cfg, it, snap, now);
      HandleFits(cfg, seen, snap, now);
      BodyOf(cfg, seen, body.item, snap, now);
      TailAsks(cfg, seen, body, SeesNothingNew(seen, snap), snap, now);
      TailReaches(body.item, snap, now);
      var step := TransitionItem(cfg, it, snap, now);
      SeenAsksAlike(cfg, held, seen, step.item, SeesNothingNew(seen, snap), snap, AskedIn(it.id, step.actions));
    }
  }

  lemma BodyOf(cfg: Config, it: Item, next: Item, snap: Snapshot, now: int)
    requires Follows(cfg, it, next, snap, now)
    ensures next.id == it.id && (it.state.Ready? ==> next.state.Ready?)
  {
  }
}
