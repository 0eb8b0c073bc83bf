/**
 * The notification of a CI failure: which poll repeats it although neither the failure nor the
 * commit time changed.
 */
module CiNotices {
  import opened OrchestratorTypes
  import opened OrchestratorGuards
  import opened Lifecycle
  import opened LifecycleFacts
  import opened LifecycleSteps
  import opened FeedbackTiming
  import opened ActionHomes
  import opened LivenessReadings

  /** No CI failure is notified. */
  predicate Mute(actions: seq<Action>) {
    forall j :: 0 <= j < |actions| ==> !actions[j].NotifyCiFailure?
  }

  predicate Notifies(step: Step) {
    step.Step? && !Mute(step.actions)
  }

  /** The notification is on record for the commit time the item has. */
  predicate Stamped(it: Item) {
    it.ci.notified && it.ci.notifiedAt == OrTime(it.pr.lastCommitTime, Null)
  }

  /** Who notifies leaves the item waiting in ci-failed, with the notification on record. */
  predicate Told(step: Step) {
    Notifies(step) ==> step.item.state.CiFailed? && !step.item.session.parked && Stamped(step.item)
  }

  lemma AfterTold(step: Step, before: seq<Action>)
    requires Mute(before)
    ensures Notifies(step.After(before)) <==> Notifies(step)
    ensures Told(step) ==> Told(step.After(before))
  {
    if step.Step? {
      assert forall j :: 0 <= j < |step.actions| ==> (before + step.actions)[|before| + j] == step.actions[j];
    }
  }

  lemma QuietMute(step: Step, past: Past, snap: Snapshot, now: int)
    requires StaysQuiet(step, past, snap, now)
    ensures !Notifies(step)
  {
  }

  // ---- What the handlers notify -----------------------------------------------------------

  lemma PlanMute(cfg: Config, it: Item, now: int)
    ensures PlanRebaseConflictAction(cfg, it, now).Step? && !Notifies(PlanRebaseConflictAction(cfg, it, now))
  {
  }

  lemma HoldOrMergeMute(cfg: Config, it: Item, snap: Snapshot, now: int)
    ensures !Notifies(HoldOrMerge(cfg, it, snap, now))
  {
  }

  lemma EvaluateMergeMute(cfg: Config, it: Item, snap: Snapshot, now: int)
    ensures !Notifies(EvaluateMerge(cfg, it, snap, now))
  {
    hide TryHandleNoNewInfo, ContinuePendingFeedbackHandoff, ResolvePendingFeedbackBatch, LaunchReviewRound, HoldOrMerge, Notifies,
         StaysQuiet;
    NoNewInfoQuiet(it, snap, now);
    HandoffQuiet(it, snap, now);
    ResolveQuiet(it, snap, now);
    QuietMute(TryHandleNoNewInfo(it, snap, now), PastOf(it), snap, now);
    QuietMute(ContinuePendingFeedbackHandoff(it, snap, now), PastOf(it), snap, now);
    QuietMute(ResolvePendingFeedbackBatch(it, snap, now), PastOf(it), snap, now);
    var gated := it.(review := it.review.(completed := it.review.completed || cfg.skipReview));
    LaunchReviewQuiet(cfg, gated, snap, now);
    QuietMute(LaunchReviewRound(cfg, gated, snap, now), PastOf(gated), snap, now);
    HoldOrMergeMute(cfg, gated, snap, now);
  }

  lemma PassAndEvaluateMute(cfg: Config, it: Item, snap: Snapshot, before: seq<Action>, now: int)
    requires Mute(before)
    ensures !Notifies(PassAndEvaluate(cfg, it, snap, before, now))
  {
    hide EvaluateMerge, Notifies, Mute;
    var passed := Transition(it, CiPassed, now);
    if passed.Moved? {
      EvaluateMergeMute(cfg, passed.item, snap, now);
      AfterTold(EvaluateMerge(cfg, passed.item, snap, now), before);
    } else {
      NoNotice(passed);
    }
  }

  lemma NoNotice(move: Move)
    requires move.Illegal?
    ensures !Notifies(Throw(move.from, move.to))
  {
  }

  lemma RestartCiMute(it: Item, snap: Snapshot, before: seq<Action>, now: int)
    requires Mute(before)
    ensures !Notifies(RestartCi(it, snap, before, now))
  {
  }

  lemma EmitTold(it: Item, now: int)
    requires it.state.CiFailed? && !it.session.parked
    ensures Told(EmitCiFailureNotification(it, now))
  {
  }

  lemma FailCiTold(cfg: Config, it: Item, snap: Snapshot, now: int)
    requires !it.state.CiFailed?
    ensures Told(FailCi(cfg, it, snap, now))
  {
    hide PlanRebaseConflictAction;
    var failed := Transition(it, CiFailed, now);
    if failed.Moved? {
      PlanMute(cfg, CountCiFailure(failed.item), now);
    }
  }

  lemma HandleCiPendingTold(cfg: Config, it: Item, snap: Snapshot, now: int)
    requires it.state.CiPending?
    ensures Told(HandleCiPending(cfg, it, snap, now))
  {
    hide FailCi, PlanRebaseConflictAction, PassAndEvaluate, ResolvePendingFeedbackBatch, StaysQuiet;
    FailCiTold(cfg, it, snap, now);
    PlanMute(cfg, it, now);
    PassAndEvaluateMute(cfg, it, snap, [], now);
    ResolveQuiet(it, snap, now);
    QuietMute(ResolvePendingFeedbackBatch(it, snap, now), PastOf(it), snap, now);
  }

  lemma HandleCiPassedTold(cfg: Config, it: Item, snap: Snapshot, now: int)
    requires it.state.CiPassed?
    ensures Told(HandleCiPassed(cfg, it, snap, now))
  {
    hide FailCi, PlanRebaseConflictAction, EvaluateMerge, RestartCi;
    FailCiTold(cfg, it, snap, now);
    RestartCiMute(it, snap, [], now);
    EvaluateMergeMute(cfg, it, snap, now);
    PlanMute(cfg, Enter(it, CiPending, now), now);
  }

  /** The last step of a poll leaves a failing item and its notification where they are. */
  lemma TailKeepsNotice(it: Item, snap: Snapshot, now: int)
    requires it.state.CiFailed? && !it.session.parked
    ensures var step := Tail(it, snap, now);
      && step.Step? && step.item.state.CiFailed? && !step.item.session.parked
      && step.item.ci == it.ci && step.item.pr == it.pr && step.item.id == it.id && Mute(step.actions)
  {
  }

  lemma HandleCiStillFailingTold(it: Item, snap: Snapshot, now: int)
    requires it.state.CiFailed? && !it.session.parked
    ensures Told(HandleCiStillFailing(it, snap, now))
  {
    hide RespawnCiFixWorker, Tail, ResolvePendingFeedbackBatch;
    var notified := NotifyStillFailing(it, now);
    var seen := CountLiveness(notified.item, snap);
    RespawnQuiet(seen, snap, now);
    QuietMute(RespawnCiFixWorker(seen, now), PastOf(seen), snap, now);
    TailKeepsNotice(seen, snap, now);
    TailIsResolve(seen, snap, now);
  }

  lemma HandleCiFailedTold(cfg: Config, it: Item, snap: Snapshot, now: int)
    requires it.state.CiFailed? && !it.session.parked
    ensures Told(HandleCiFailed(cfg, it, snap, now))
  {
    hide HandleCiPassed, RestartCi, PlanRebaseConflictAction, HandleCiStillFailing;
    HandleCiPassedTold(cfg, Enter(it, CiPassed, now), snap, now);
    RestartCiMute(it, snap, [], now);
    PlanMute(cfg, it, now);
    HandleCiStillFailingTold(it, snap, now);
  }

  lemma ResumeCiTold(cfg: Config, it: Item, snap: Snapshot, signal: seq<Action>, now: int)
    requires Mute(signal)
    ensures Told(ResumeCi(cfg, it, snap, signal, now))
  {
    hide HandleCiPending;
    var pending := Transition(it, CiPending, now);
    if pending.Moved? {
      var sync := if it.pr.baseBranch.Ref? then [SyncStackComments(it.id)] else [];
      HandleCiPendingTold(cfg, pending.item, snap, now);
      AfterTold(HandleCiPending(cfg, pending.item, snap, now), signal + sync);
    }
  }

  lemma PushbackTold(cfg: Config, it: Item, snap: Snapshot, now: int)
    ensures Told(TryHandlePushback(cfg, it, snap, now))
  {
    hide ResumeCi;
    ResumeCiTold(cfg, RecordPushback(it, snap), snap, [ClearPushback(it.id)], now);
  }

  lemma HandleOpenPrTold(cfg: Config, it: Item, snap: Snapshot, now: int)
    ensures Told(HandleOpenPr(cfg, it, snap, now))
  {
    hide ResumeCi, TryHandlePushback, TryHandleNoNewInfo, StaysQuiet;
    ResumeCiTold(cfg, TrackPr(it, snap), snap, [], now);
    ResumeCiTold(cfg, TrackPr(FinishFeedback(it), snap), snap, [ClearFeedbackDone(it.id)], now);
    NoNewInfoQuiet(it, snap, now);
    QuietMute(TryHandleNoNewInfo(it, snap, now), PastOf(it), snap, now);
    PushbackTold(cfg, it, snap, now);
  }

  lemma HandleImplementingTold(cfg: Config, it: Item, snap: Snapshot, now: int)
    ensures Told(HandleImplementing(cfg, it, snap, now))
  {
    hide HandleOpenPr, HandleWorking, StaysQuiet;
    HandleOpenPrTold(cfg, it, snap, now);
    HandleWorkingQuiet(cfg, it, snap, now);
    HandleWorkingQuiet(cfg, TrackPr(it, snap), snap, now);
    QuietMute(HandleWorking(cfg, it, snap, now), PastOf(it), snap, now);
    QuietMute(HandleWorking(cfg, TrackPr(it, snap), snap, now), PastOf(TrackPr(it, snap)), snap, now);
  }

  // ---- Reviews ----------------------------------------------------------------------------

  /** A failure during a review is notified and not put on record. */
  predicate ToldInReview(it: Item, step: Step) {
    Notifies(step) ==>
      && step.item.state.CiFailed? && !step.item.session.parked
      && step.item.ci.notified == it.ci.notified && step.item.ci.notifiedAt == it.ci.notifiedAt
  }

  lemma HandleReviewRunningTold(cfg: Config, it: Item, snap: Snapshot, now: int)
    requires it.state.Reviewing?
    ensures ToldInReview(it, HandleReviewRunning(cfg, it, snap, now))
  {
    hide PassAndEvaluate, PlanRebaseConflictAction;
    var seen := if it.review.workspace.Workspace? then CountLiveness(it, snap) else it;
    var clean := [CleanReview(it.id)];
    PassAndEvaluateMute(cfg, it, snap, clean + [SetCommitStatus(it.id, it.pr.number, Pass)], now);
    PassAndEvaluateMute(cfg, seen, snap, clean + [SetCommitStatus(it.id, it.pr.number, Fail)], now);
    var failed, pending := CountCiFailure(Enter(seen, CiFailed, now)), Enter(seen, CiPending, now);
    PlanMute(cfg, failed, now);
    PlanMute(cfg, pending, now);
    AfterTold(PlanRebaseConflictAction(cfg, failed, now), clean);
    AfterTold(PlanRebaseConflictAction(cfg, pending, now), clean);
  }

  lemma HandleReviewingTold(cfg: Config, it: Item, snap: Snapshot, now: int)
    requires it.state.Reviewing?
    ensures ToldInReview(it, HandleReviewing(cfg, it, snap, now))
  {
    hide PassAndEvaluate, HandleReviewRunning;
    var approved := it.(review := it.review.(completed := true, lastReviewed := snap.headSha, lastApproved := snap.headSha));
    PassAndEvaluateMute(cfg, approved, snap,
      [CleanReview(it.id), PostReview(it.id, it.pr.number, Approve), SetCommitStatus(it.id, it.pr.number, Pass)], now);
    HandleReviewRunningTold(cfg, it, snap, now);
  }

  lemma FailCiFromReviewTold(cfg: Config, it: Item, snap: Snapshot, before: seq<Action>, now: int)
    requires it.state.ReviewPending? && Mute(before)
    ensures Told(FailCiFromReview(cfg, it, snap, before, now))
  {
    hide PlanRebaseConflictAction, RespawnCiFixWorker, EmitCiFailureNotification, Mute;
    var counted := CountCiFailure(Enter(it, CiFailed, now));
    PlanMute(cfg, counted, now);
    AfterTold(PlanRebaseConflictAction(cfg, counted, now), before);
    RespawnQuiet(counted, snap, now);
    QuietMute(RespawnCiFixWorker(counted, now), PastOf(counted), snap, now);
    EmitTold(counted, now);
    AfterTold(EmitCiFailureNotification(counted, now), before);
  }

  lemma NudgeOrRecoverMute(cfg: Config, it: Item, snap: Snapshot, before: seq<Action>, now: int)
    requires Mute(before)
    ensures !Notifies(NudgeOrRecoverReview(cfg, it, snap, before, now))
  {
    hide PlanRebaseConflictAction, PassAndEvaluate, InboxWaitStalled;
    PlanMute(cfg, it, now);
    var nudged := if snap.isMergeable.No? then PlanRebaseConflictAction(cfg, it, now) else Step(it, []);
    AfterTold(nudged, before);
    PassAndEvaluateMute(cfg, ForgetReview(nudged.item), snap, before + nudged.actions, now);
  }

  lemma HandleSettledReviewTold(cfg: Config, it: Item, snap: Snapshot, before: seq<Action>, now: int)
    requires it.state.ReviewPending? && Still(before)
    ensures Told(HandleSettledReview(cfg, it, snap, before, now))
  {
    hide EvaluateMerge, RespawnForFeedback, FailCiFromReview, AwaitFix, RestartCi, PassAndEvaluate, NudgeOrRecoverReview, StaysQuiet;
    EvaluateMergeMute(cfg, it, snap, now);
    AfterTold(EvaluateMerge(cfg, it, snap, now), before);
    var message := if it.feedback.message.NoMessage? then GitHubRequestedChanges else it.feedback.message;
    RespawnFeedbackQuiet(it, message, snap, now);
    QuietMute(RespawnForFeedback(it, message, now), PastOf(it), snap, now);
    FailCiFromReviewTold(cfg, it, snap, before, now);
    AwaitFixQuiet(it, snap, before, now);
    QuietMute(AwaitFix(it, snap, before, now), PastOf(it), snap, now);
    RestartCiMute(it, snap, before, now);
    PassAndEvaluateMute(cfg, it, snap, before, now);
    NudgeOrRecoverMute(cfg, it, snap, before, now);
  }

  lemma HandleAnsweredReviewTold(cfg: Config, it: Item, snap: Snapshot, before: seq<Action>, now: int)
    requires it.state.ReviewPending? && Still(before)
    ensures Told(HandleAnsweredReview(cfg, it, snap, before, now))
  {
    hide ContinuePendingFeedbackHandoff, ResolvePendingFeedbackBatch, HandleSettledReview, StaysQuiet, Still;
    HandoffQuiet(it, snap, now);
    ResolveQuiet(it, snap, now);
    QuietMute(ContinuePendingFeedbackHandoff(it, snap, now), PastOf(it), snap, now);
    QuietMute(ResolvePendingFeedbackBatch(it, snap, now), PastOf(it), snap, now);
    HandleSettledReviewTold(cfg, it, snap, before, now);
  }

  lemma HandleReviewPendingTold(cfg: Config, it: Item, snap: Snapshot, now: int)
    requires it.state.ReviewPending?
    ensures Told(HandleReviewPending(cfg, it, snap, now))
  {
    hide PassAndEvaluate, TryHandleNoNewInfo, TryHandlePushback, HandleAnsweredReview, RestartCi, StaysQuiet;
    PassAndEvaluateMute(cfg, it, snap, [SetCommitStatus(it.id, it.pr.number, Pass)], now);
    NoNewInfoQuiet(it, snap, now);
    QuietMute(TryHandleNoNewInfo(it, snap, now), PastOf(it), snap, now);
    PushbackTold(cfg, it, snap, now);
    var done, signal := FinishFeedback(it), [ClearFeedbackDone(it.id)];
    RestartCiMute(done, snap, signal, now);
    PassAndEvaluateMute(cfg, done, snap, signal, now);
    HandleAnsweredReviewTold(cfg, done, snap, signal, now);
    HandleAnsweredReviewTold(cfg, it, snap, [], now);
  }

  lemma HandleMergingMute(cfg: Config, it: Item, snap: Snapshot, now: int)
    ensures !Notifies(HandleMerging(cfg, it, snap, now))
  {
    hide ContinuePendingFeedbackHandoff, ResolvePendingFeedbackBatch, StaysQuiet;
    HandoffQuiet(it, snap, now);
    ResolveQuiet(it, snap, now);
    QuietMute(ContinuePendingFeedbackHandoff(it, snap, now), PastOf(it), snap, now);
    QuietMute(ResolvePendingFeedbackBatch(it, snap, now), PastOf(it), snap, now);
  }

  lemma HandleFixingForwardTold(cfg: Config, it: Item, snap: Snapshot, now: int)
    requires it.state.FixingForward?
    ensures Told(HandleFixingForward(cfg, it, snap, now))
  {
    hide HandleCiPending;
    if RepairPrVisible(snap) && !snap.prState.PrMerged? {
      HandleCiPendingTold(cfg, Enter(AdoptRepairPr(it, snap.prNumber.n), CiPending, now), snap, now);
    }
  }

  // ---- A whole poll -----------------------------------------------------------------------

  lemma HandleTold(cfg: Config, it: Item, snap: Snapshot, now: int)
    requires ParkedOk(it)
    ensures var step := Handle(cfg, it, snap, now); if it.state.Reviewing? then ToldInReview(it, step) else Told(step)
  {
    hide HandleLaunching, HandleImplementing, HandleCiPending, HandleCiPassed, HandleCiFailed, HandleRebasing, HandleReviewing,
         HandleReviewPending, HandleMerging, HandleFixingForward, HandleMerged, HandleForwardFixPending, HandleFixForwardFailed,
         StaysQuiet, Notifies, Stamped;
    var past := PastOf(it);
    match it.state {
      case Launching =>
        HandleLaunchingQuiet(cfg, it, snap, now);
        QuietMute(HandleLaunching(cfg, it, snap, now), past, snap, now);
      case Implementing => HandleImplementingTold(cfg, it, snap, now);
      case CiPending => HandleCiPendingTold(cfg, it, snap, now);
      case CiPassed => HandleCiPassedTold(cfg, it, snap, now);
      case CiFailed => HandleCiFailedTold(cfg, it, snap, now);
      case Rebasing =>
        HandleRebasingQuiet(it, snap, now);
        QuietMute(HandleRebasing(it, snap, now), past, snap, now);
      case Reviewing => HandleReviewingTold(cfg, it, snap, now);
      case ReviewPending => HandleReviewPendingTold(cfg, it, snap, now);
      case Merging => HandleMergingMute(cfg, it, snap, now);
      case FixingForward => HandleFixingForwardTold(cfg, it, snap, now);
      case _ =>
        PostMergeQuiet(cfg, it, snap, now);
        QuietMute(Handle(cfg, it, snap, now), past, snap, now);
    }
  }

  /** What a poll that notifies leaves: the notification is on record, unless the item was in review. */
  lemma NoticeOnRecord(cfg: Config, it: Item, snap: Snapshot, now: int)
    requires ParkedOk(it) && Notifies(TransitionItem(cfg, it, snap, now))
    ensures var step := TransitionItem(cfg, it, snap, now);
      if it.state.Reviewing? then ToldInReview(it, step) else Told(step)
  {
    hide Seen, Handle, Tail, Mute, StaysQuiet;
    SeenStands(it, snap, now);
    var seen := Seen(it, snap, now);
    MergedOutside1(cfg, it, snap, now);
    HandleTold(cfg, seen, snap, now);
    var body := Handle(cfg, seen, snap, now);
    NoticeIsOwn(body.item, body.actions, snap, now);
    TailKeepsNotice(body.item, snap, now);
  }

  /** A pull request merged outside notifies nothing. */
  lemma MergedOutside1(cfg: Config, it: Item, snap: Snapshot, now: int)
    requires Notifies(TransitionItem(cfg, it, snap, now))
    ensures !ExternallyMerged(it, snap) && Handle(cfg, Seen(it, snap, now), snap, now).Step?
  {
    hide Seen, Handle, Tail;
    if ExternallyMerged(it, snap) {
      MergedOutside(it, snap, now);
    }
  }

  /** The last step of a poll notifies nothing itself. */
  lemma NoticeIsOwn(it: Item, before: seq<Action>, snap: Snapshot, now: int)
    ensures Notifies(Tail(it, snap, now).After(before)) ==> !Mute(before)
  {
    hide StaysQuiet, ResolvePendingFeedbackBatch, Tail;
    TailIsResolve(it, snap, now);
    ResolveQuiet(it, snap, now);
    QuietMute(ResolvePendingFeedbackBatch(it, snap, now), PastOf(it), snap, now);
    var tail := Tail(it, snap, now);
    if tail.Step? && Mute(before) {
      AfterTold(tail, before);
    }
  }

  // ---- The poll after a notification ------------------------------------------------------

  /** The poll finds CI still failing, with nothing else to do about it than to wait for the fix. */
  predicate StillFails(cfg: Config, it: Item, snap: Snapshot, now: int) {
    !snap.prState.PrMerged? && KeepsFixing(cfg, it, snap, now) && !LivenessOf(it, snap).Dead?
  }

  lemma FailingHandler(cfg: Config, it: Item, snap: Snapshot, now: int)
    requires it.state.CiFailed? && !it.session.parked && StillFails(cfg, it, snap, now)
    ensures var step := HandleCiFailed(cfg, it, snap, now);
      step.Step? && step.item.state.CiFailed? && (Notifies(step) <==> !StillNotified(it))
  {
    hide RespawnCiFixWorker, HandleCiPassed, RestartCi, PlanRebaseConflictAction, CiFixUnacknowledged, Tail, ResolvePendingFeedbackBatch;
    var notified := NotifyStillFailing(it, now);
    var seen := CountLiveness(notified.item, snap);
    TailKeepsNotice(seen, snap, now);
    TailIsResolve(seen, snap, now);
    var step := HandleCiFailed(cfg, it, snap, now);
    assert step == Tail(seen, snap, now).After(notified.actions);
    if !StillNotified(it) {
      assert step.actions[0] == NotifyCiFailure(it.id, it.pr.number);
    }
  }

  lemma FailingPoll(cfg: Config, it: Item, snap: Snapshot, now: int)
    requires it.state.CiFailed? && !it.session.parked && StillFails(cfg, it, snap, now)
    ensures var step := TransitionItem(cfg, it, snap, now); step.Step? && (Notifies(step) <==> !StillNotified(it))
  {
    hide Seen, HandleCiFailed, Tail, Mute, StaysQuiet, CiFixUnacknowledged;
    SeenStands(it, snap, now);
    var seen := Seen(it, snap, now);
    SameAcknowledgement(it, seen, snap, now);
    FailingHandler(cfg, seen, snap, now);
    var body := HandleCiFailed(cfg, seen, snap, now);
    HandleCiFailedTold(cfg, seen, snap, now);
    NoticeIsOwn(body.item, body.actions, snap, now);
    BodyUnparked(cfg, seen, snap, now);
    TailKeepsNotice(body.item, snap, now);
    if !Mute(body.actions) {
      NoticeStays(Tail(body.item, snap, now), body.actions);
    }
  }

  lemma SameAcknowledgement(it: Item, seen: Item, snap: Snapshot, now: int)
    requires seen.ci == it.ci
    ensures CiFixUnacknowledged(seen, snap, now) <==> CiFixUnacknowledged(it, snap, now)
  {
  }

  lemma BodyUnparked(cfg: Config, it: Item, snap: Snapshot, now: int)
    requires it.state.CiFailed? && !it.session.parked && StillFails(cfg, it, snap, now)
    ensures var step := HandleCiFailed(cfg, it, snap, now); step.Step? && !step.item.session.parked
  {
    hide RespawnCiFixWorker, HandleCiPassed, RestartCi, PlanRebaseConflictAction, CiFixUnacknowledged, Tail, ResolvePendingFeedbackBatch;
    var seen := CountLiveness(NotifyStillFailing(it, now).item, snap);
    TailKeepsNotice(seen, snap, now);
    TailIsResolve(seen, snap, now);
  }

  lemma NoticeStays(step: Step, before: seq<Action>)
    requires step.Step? && !Mute(before)
    ensures Notifies(step.After(before))
  {
    var j :| 0 <= j < |before| && before[j].NotifyCiFailure?;
    assert (before + step.actions)[j] == before[j];
  }

  /** Between two polls the item keeps waiting in ci-failed, and its commit time stands. */
  predicate Waiting(it: Item, next: Item) {
    && next.state.CiFailed? && !next.session.parked
    && next.ci == it.ci && next.pr.lastCommitTime == it.pr.lastCommitTime
  }

  /**
   * Main result: CI failure is to be notified once per failure cycle. A poll that follows one which
   * notified, with the same commit time and CI still failing, notifies again exactly when the failure
   * came during a review, or the commit time is undefined. That no item is `Flagged` holds in every
   * run: `Run.RunUnflagged`.
   */
  lemma NotifiesAgainExactly(cfg: Config, it: Item, snap: Snapshot, now: int, next: Item, later: Snapshot, at: int)
    requires ParkedOk(it) && !Flagged(it) && Notifies(TransitionItem(cfg, it, snap, now))
    requires Waiting(TransitionItem(cfg, it, snap, now).item, next) && StillFails(cfg, next, later, at)
    ensures var step := TransitionItem(cfg, next, later, at);
      step.Step? && (Notifies(step) <==> it.state.Reviewing? || next.pr.lastCommitTime.Undefined?)
  {
    hide TransitionItem, Notifies, StillFails, ParkedOk;
    NoticeOnRecord(cfg, it, snap, now);
    FailingPoll(cfg, next, later, at);
  }

  // ---- An input ---------------------------------------------------------------------------

  /** A check fails during a review of a commit whose time is known: the next poll notifies again, and the one after it does not. */
  lemma ReviewFailureRepeats(cfg: Config, w: WorkItem)
    requires cfg.maxCiRetries >= 1
    ensures var added := NewItem(w, 0);
      var it := added.(state := Reviewing, pr := added.pr.(lastCommitTime := At(5)));
      var red := NoSnapshot().(ciStatus := Fail, isMergeable := Yes);
      var first := TransitionItem(cfg, it, red, 0);
      && first.Step? && Notifies(first)
      && var second := TransitionItem(cfg, first.item, red, 0);
      && second.Step? && Notifies(second) && second.item.pr.lastCommitTime == At(5)
      && !Notifies(TransitionItem(cfg, second.item, red, 0))
  {
    hide TransitionItem, Notifies, Stamped;
    var added := NewItem(w, 0);
    var it := added.(state := Reviewing, pr := added.pr.(lastCommitTime := At(5)));
    var red := NoSnapshot().(ciStatus := Fail, isMergeable := Yes);
    FailsInReview(cfg, it, red);
    var first := TransitionItem(cfg, it, red, 0);
    NotifiesAgainExactly(cfg, it, red, 0, first.item, red, 0);
    FailsAgain(cfg, first.item, red);
    var second := TransitionItem(cfg, first.item, red, 0);
    NotifiesAgainExactly(cfg, first.item, red, 0, second.item, red, 0);
  }

  lemma FailsInReview(cfg: Config, it: Item, red: Snapshot)
    requires it == NewItem(it.workItem, 0).(state := Reviewing, pr := it.pr) && red == NoSnapshot().(ciStatus := Fail, isMergeable := Yes)
    ensures var step := TransitionItem(cfg, it, red, 0);
      && step.Step? && Notifies(step) && step.item.state.CiFailed? && !step.item.session.parked && step.item.ci.failCount == 1
      && !step.item.ci.notified && step.item.ci.notifyWallAt.Undefined? && step.item.pr == it.pr && step.item.feedback == it.feedback
  {
    hide Seen;
    SeenStands(it, red, 0);
    var seen := Seen(it, red, 0);
    assert HumanComments([]) == [];
    var body := HandleReviewRunning(cfg, seen, red, 0);
    assert body.actions[1] == NotifyCiFailure(it.id, it.pr.number);
    NoBatchNoTail(body.item, red, 0);
    assert body.actions + [] == body.actions;
  }

  lemma FailsAgain(cfg: Config, it: Item, red: Snapshot)
    requires it.state.CiFailed? && !it.session.parked && it.ci.failCount <= cfg.maxCiRetries && it.feedback.batch.NoBatch? && !it.ci.notified
    requires red == NoSnapshot().(ciStatus := Fail, isMergeable := Yes)
    ensures var step := TransitionItem(cfg, it, red, 0);
      && step.Step? && step.item.state.CiFailed? && !step.item.session.parked && step.item.ci.failCount == it.ci.failCount
      && step.item.pr == it.pr && step.item.ci.notifyWallAt == At(0)
  {
    hide Seen, RespawnCiFixWorker, HandleCiPassed, RestartCi, PlanRebaseConflictAction;
    SeenStands(it, red, 0);
    var seen := Seen(it, red, 0);
    assert HumanComments([]) == [];
    var body := HandleCiStillFailing(seen, red, 0);
    NoBatchNoTail(seen, red, 0);
    NoBatchNoTail(body.item, red, 0);
  }
}
