/**
 * What a poll publishes about a review: the verdict and the commit status on the pull request, the
 * message to the implementer, and the announcement of a new round (core/orchestrator.ts).
 */
module ReviewPosts {
  import opened OrchestratorTypes
  import opened OrchestratorGuards
  import opened Lifecycle
  import opened LifecycleFacts
  import opened LifecycleSteps
  import opened FeedbackTiming

  /** The action tells somebody about a review. */
  predicate Public(a: Action) {
    a.PostReview? || a.SetCommitStatus? || a.NotifyReview? || a.LaunchReview?
  }

  /** What the actions publish, in order. */
  function Published(actions: seq<Action>): seq<Action> {
    if actions == [] then []
    else (if Public(actions[0]) then [actions[0]] else []) + Published(actions[1..])
  }

  lemma PublishedStep(actions: seq<Action>)
    requires actions != []
    ensures Published(actions) == Published([actions[0]]) + Published(actions[1..])
  {
    assert [actions[0]][1..] == [];
  }

  lemma PublishedJoin(a: seq<Action>, b: seq<Action>)
    requires a != [] && Published(a[1..] + b) == Published(a[1..]) + Published(b)
    ensures Published(a + b) == Published(a) + Published(b)
  {
    hide Published;
    PublishedStep(a);
    PublishedStep(a + b);
    assert (a + b)[1..] == a[1..] + b;
    assert Published(a + b) == Published([a[0]]) + (Published(a[1..]) + Published(b));
  }

  lemma {:induction false} PublishedConcat(a: seq<Action>, b: seq<Action>)
    ensures Published(a + b) == Published(a) + Published(b)
  {
    if a == [] {
      assert a + b == b;
    } else {
      PublishedConcat(a[1..], b);
      PublishedJoin(a, b);
    }
  }

  predicate Private(actions: seq<Action>) {
    forall j :: 0 <= j < |actions| ==> !Public(actions[j])
  }

  lemma {:induction false} PrivatePublishesNothing(actions: seq<Action>)
    requires Private(actions)
    ensures Published(actions) == []
  {
    if actions != [] {
      PrivatePublishesNothing(actions[1..]);
    }
  }

  /** The start of a review round: the reviewer is launched and the commit is marked as being reviewed. */
  function Announcement(it: Item): seq<Action> {
    [LaunchReview(it.id, it.pr.number), SetCommitStatus(it.id, it.pr.number, InProgress)]
  }

  /** The step publishes `first`, and announces a round at most when it leaves the item in review. */
  predicate Publishes(step: Step, first: seq<Action>) {
    step.Step? ==>
      || Published(step.actions) == first
      || (step.item.state.Reviewing? && !step.item.session.parked && Published(step.actions) == first + Announcement(step.item))
  }

  predicate PublishesNothing(step: Step) {
    step.Step? ==> Private(step.actions)
  }

  lemma NothingPublished(step: Step)
    requires PublishesNothing(step)
    ensures Publishes(step, [])
  {
    if step.Step? {
      PrivatePublishesNothing(step.actions);
    }
  }

  lemma AfterPublishes(step: Step, before: seq<Action>, first: seq<Action>)
    requires Publishes(step, first)
    ensures Publishes(step.After(before), Published(before) + first)
  {
    if step.Step? {
      PublishedConcat(before, step.actions);
      assert Published(before) + (first + Announcement(step.item)) == Published(before) + first + Announcement(step.item);
    }
  }

  lemma AfterPrivate(step: Step, before: seq<Action>)
    requires Publishes(step, []) && Private(before)
    ensures Publishes(step.After(before), [])
  {
    hide Publishes;
    PrivatePublishesNothing(before);
    AfterPublishes(step, before, []);
  }

  // ---- Helpers ----------------------------------------------------------------------------

  lemma RespawnPrivate(it: Item, message: Message, now: int)
    ensures PublishesNothing(RespawnForFeedback(it, message, now)) && PublishesNothing(RespawnCiFixWorker(it, now))
  {
  }

  lemma ResolvePrivate(it: Item, snap: Snapshot, now: int)
    ensures PublishesNothing(ResolvePendingFeedbackBatch(it, snap, now))
  {
    hide ReopenReview, TakeBatch, Transition;
  }

  lemma HandoffPrivate(it: Item, snap: Snapshot, now: int)
    ensures PublishesNothing(ContinuePendingFeedbackHandoff(it, snap, now))
  {
    hide Transition;
  }

  lemma SettlePrivate(it: Item, snap: Snapshot, now: int)
    ensures PublishesNothing(TryHandleNoNewInfo(it, snap, now))
  {
    hide Settle, Transition;
  }

  lemma PlanPrivate(cfg: Config, it: Item, now: int)
    ensures PublishesNothing(PlanRebaseConflictAction(cfg, it, now)) && PlanRebaseConflictAction(cfg, it, now).Step?
  {
  }

  lemma HoldPrivate(cfg: Config, it: Item, snap: Snapshot, now: int)
    ensures PublishesNothing(HoldOrMerge(cfg, it, snap, now))
  {
    hide Transition;
  }

  lemma RoundPublishes(cfg: Config, it: Item, snap: Snapshot, now: int)
    ensures Publishes(LaunchReviewRound(cfg, it, snap, now), [])
  {
    var step := LaunchReviewRound(cfg, it, snap, now);
    if step.Step? && step.actions != [] {
      assert step.actions == Announcement(step.item);
      PublishedTwo(step.actions[0], step.actions[1]);
      assert [] + Announcement(step.item) == Announcement(step.item);
    }
  }

  lemma EvaluatePublishes(cfg: Config, it: Item, snap: Snapshot, now: int)
    ensures Publishes(EvaluateMerge(cfg, it, snap, now), [])
    ensures it.review.completed || cfg.skipReview ==> PublishesNothing(EvaluateMerge(cfg, it, snap, now))
  {
    hide TryHandleNoNewInfo, ContinuePendingFeedbackHandoff, ResolvePendingFeedbackBatch, LaunchReviewRound, HoldOrMerge, Publishes,
         Private;
    SettlePrivate(it, snap, now);
    HandoffPrivate(it, snap, now);
    ResolvePrivate(it, snap, now);
    NothingPublished(TryHandleNoNewInfo(it, snap, now));
    NothingPublished(ContinuePendingFeedbackHandoff(it, snap, now));
    NothingPublished(ResolvePendingFeedbackBatch(it, snap, now));
    var gated := it.(review := it.review.(completed := it.review.completed || cfg.skipReview));
    RoundPublishes(cfg, gated, snap, now);
    HoldPrivate(cfg, gated, snap, now);
    NothingPublished(HoldOrMerge(cfg, gated, snap, now));
  }

  // ---- Handlers ---------------------------------------------------------------------------

  lemma PassPublishes(cfg: Config, it: Item, snap: Snapshot, before: seq<Action>, now: int)
    ensures var step := PassAndEvaluate(cfg, it, snap, before, now);
      && Publishes(step, Published(before))
      && (step.Step? && (it.review.completed || cfg.skipReview) ==> Published(step.actions) == Published(before))
  {
    hide EvaluateMerge, Publishes;
    var passed := Transition(it, CiPassed, now);
    if passed.Moved? {
      PassedKeepsReview(it, now);
      EvaluatePublishes(cfg, passed.item, snap, now);
      var step := EvaluateMerge(cfg, passed.item, snap, now);
      AfterPublishes(step, before, []);
      assert Published(before) + [] == Published(before);
      if step.Step? && PublishesNothing(step) {
        PrivatePublishesNothing(step.actions);
        PublishedConcat(before, step.actions);
      }
    } else {
      ThrowPublishes(passed, Published(before));
    }
  }

  lemma PassedKeepsReview(it: Item, now: int)
    ensures var passed := Transition(it, CiPassed, now); passed.Moved? ==> passed.item.review == it.review
  {
  }

  lemma ThrowPublishes(move: Move, first: seq<Action>)
    requires move.Illegal?
    ensures Publishes(Throw(move.from, move.to), first)
  {
  }

  lemma PassPrivate(cfg: Config, it: Item, snap: Snapshot, before: seq<Action>, now: int)
    requires Private(before)
    ensures Publishes(PassAndEvaluate(cfg, it, snap, before, now), [])
  {
    hide PassAndEvaluate, Publishes;
    PassPublishes(cfg, it, snap, before, now);
    PrivatePublishesNothing(before);
  }

  lemma RestartPrivate(it: Item, snap: Snapshot, before: seq<Action>, now: int)
    requires Private(before)
    ensures PublishesNothing(RestartCi(it, snap, before, now))
  {
    hide Transition;
  }

  lemma FailPrivate(cfg: Config, it: Item, snap: Snapshot, now: int)
    ensures PublishesNothing(FailCi(cfg, it, snap, now))
  {
    hide Transition;
  }

  lemma CiPendingPublishes(cfg: Config, it: Item, snap: Snapshot, now: int)
    ensures Publishes(HandleCiPending(cfg, it, snap, now), [])
  {
    hide FailCi, PlanRebaseConflictAction, PassAndEvaluate, ResolvePendingFeedbackBatch, Publishes, Private;
    FailPrivate(cfg, it, snap, now);
    NothingPublished(FailCi(cfg, it, snap, now));
    PlanPrivate(cfg, it, now);
    NothingPublished(PlanRebaseConflictAction(cfg, it, now));
    NonePrivate();
    PassPrivate(cfg, it, snap, [], now);
    ResolvePrivate(it, snap, now);
    NothingPublished(ResolvePendingFeedbackBatch(it, snap, now));
    NothingPublished(Step(it, []));
  }

  lemma NonePrivate()
    ensures Private([])
  {
  }

  lemma CiPassedPublishes(cfg: Config, it: Item, snap: Snapshot, now: int)
    ensures Publishes(HandleCiPassed(cfg, it, snap, now), [])
  {
    hide FailCi, PlanRebaseConflictAction, EvaluateMerge, RestartCi, Publishes, Private;
    FailPrivate(cfg, it, snap, now);
    NothingPublished(FailCi(cfg, it, snap, now));
    NonePrivate();
    RestartPrivate(it, snap, [], now);
    NothingPublished(RestartCi(it, snap, [], now));
    EvaluatePublishes(cfg, it, snap, now);
    var pending := Transition(it, CiPending, now);
    if pending.Moved? {
      PlanPrivate(cfg, pending.item, now);
      NothingPublished(PlanRebaseConflictAction(cfg, pending.item, now));
    } else {
      ThrowPublishes(pending, []);
    }
  }

  lemma StillFailingPrivate(it: Item, snap: Snapshot, now: int)
    ensures PublishesNothing(HandleCiStillFailing(it, snap, now))
  {
    hide ResolvePendingFeedbackBatch, RespawnCiFixWorker, CiFixUnacknowledged;
    var notified := NotifyStillFailing(it, now);
    var seen := CountLiveness(notified.item, snap);
    ResolvePrivate(seen, snap, now);
    RespawnPrivate(seen, NoMessage, now);
  }

  lemma CiFailedPublishes(cfg: Config, it: Item, snap: Snapshot, now: int)
    ensures Publishes(HandleCiFailed(cfg, it, snap, now), [])
  {
    if it.ci.failCount > cfg.maxCiRetries {
      BreakerPrivate(cfg, it, snap, now);
      NothingPublished(HandleCiFailed(cfg, it, snap, now));
    } else {
      CiRecoversPublishes(cfg, it, snap, now);
    }
  }

  lemma BreakerPrivate(cfg: Config, it: Item, snap: Snapshot, now: int)
    requires it.ci.failCount > cfg.maxCiRetries
    ensures PublishesNothing(HandleCiFailed(cfg, it, snap, now))
  {
    hide Transition;
  }

  lemma CiRecoversPublishes(cfg: Config, it: Item, snap: Snapshot, now: int)
    requires it.ci.failCount <= cfg.maxCiRetries
    ensures Publishes(HandleCiFailed(cfg, it, snap, now), [])
  {
    hide HandleCiPassed, RestartCi, PlanRebaseConflictAction, HandleCiStillFailing, Publishes;
    var passed := Transition(it, CiPassed, now);
    if passed.Moved? {
      CiPassedPublishes(cfg, passed.item, snap, now);
    } else {
      ThrowPublishes(passed, []);
    }
    RestartPrivate(it, snap, [], now);
    NothingPublished(RestartCi(it, snap, [], now));
    PlanPrivate(cfg, it, now);
    NothingPublished(PlanRebaseConflictAction(cfg, it, now));
    StillFailingPrivate(it, snap, now);
    NothingPublished(HandleCiStillFailing(it, snap, now));
  }

  lemma ResumePublishes(cfg: Config, it: Item, snap: Snapshot, signal: seq<Action>, now: int)
    requires Private(signal)
    ensures Publishes(ResumeCi(cfg, it, snap, signal, now), [])
  {
    hide HandleCiPending, Publishes;
    var pending := Transition(it, CiPending, now);
    if pending.Moved? {
      var sync := if it.pr.baseBranch.Ref? then [SyncStackComments(it.id)] else [];
      CiPendingPublishes(cfg, pending.item, snap, now);
      AfterPrivate(HandleCiPending(cfg, pending.item, snap, now), signal + sync);
    } else {
      ThrowPublishes(pending, []);
    }
  }

  lemma PushbackPublishes(cfg: Config, it: Item, snap: Snapshot, now: int)
    ensures Publishes(TryHandlePushback(cfg, it, snap, now), [])
  {
    hide ResumeCi;
    ResumePublishes(cfg, RecordPushback(it, snap), snap, [ClearPushback(it.id)], now);
  }

  lemma OpenPrPublishes(cfg: Config, it: Item, snap: Snapshot, now: int)
    ensures Publishes(HandleOpenPr(cfg, it, snap, now), [])
  {
    hide ResumeCi, TryHandlePushback, TryHandleNoNewInfo;
    ResumePublishes(cfg, TrackPr(it, snap), snap, [], now);
    ResumePublishes(cfg, TrackPr(FinishFeedback(it), snap), snap, [ClearFeedbackDone(it.id)], now);
    SettlePrivate(it, snap, now);
    NothingPublished(TryHandleNoNewInfo(it, snap, now));
    PushbackPublishes(cfg, it, snap, now);
  }

  lemma TimeoutPrivate(cfg: Config, it: Item, snap: Snapshot, now: int)
    ensures PublishesNothing(StuckOrRetry(cfg, it, now)) && PublishesNothing(OnTimeout(cfg, it, snap, now))
    ensures PublishesNothing(RecoverHeadlessWorker(it, now))
  {
    hide Transition, DefersTimeout;
  }

  lemma WorkingPrivate(cfg: Config, it: Item, snap: Snapshot, now: int)
    ensures PublishesNothing(HandleWorking(cfg, it, snap, now))
  {
    hide StuckOrRetry, OnTimeout, RespawnForFeedback, WorkTimedOut, InboxWaitStalled, RecoverHeadlessWorker, IsRecoverableHeadlessStop;
    var seen := MarkWorking(it, snap, now);
    TimeoutPrivate(cfg, seen, snap, now);
    RespawnPrivate(seen, seen.feedback.message, now);
  }

  lemma ImplementingPublishes(cfg: Config, it: Item, snap: Snapshot, now: int)
    ensures Publishes(HandleImplementing(cfg, it, snap, now), [])
  {
    hide HandleOpenPr, HandleWorking;
    OpenPrPublishes(cfg, it, snap, now);
    WorkingPrivate(cfg, it, snap, now);
    WorkingPrivate(cfg, TrackPr(it, snap), snap, now);
    NothingPublished(HandleWorking(cfg, it, snap, now));
    NothingPublished(HandleWorking(cfg, TrackPr(it, snap), snap, now));
  }

  lemma LaunchingPrivate(cfg: Config, it: Item, snap: Snapshot, now: int)
    ensures PublishesNothing(HandleLaunching(cfg, it, snap, now))
  {
    hide StuckOrRetry, Transition, DefersTimeout;
    TimeoutPrivate(cfg, CountLiveness(it, snap), snap, now);
  }

  lemma RebasingPrivate(it: Item, snap: Snapshot, now: int)
    ensures PublishesNothing(HandleRebasing(it, snap, now))
  {
    hide RestartCi, Transition;
    RestartPrivate(it, snap, [CleanRebaser(it.id)], now);
  }

  /** What the verdict of a review, or its end without one, is to publish. */
  function Verdicts(cfg: Config, it: Item, snap: Snapshot): seq<Action> {
    var pr := it.pr.number;
    if ExternallyMerged(it, snap) then []
    else if it.state.Reviewing? then
      match snap.reviewVerdict
      case Approve => [PostReview(it.id, pr, Approve), SetCommitStatus(it.id, pr, Pass)]
      case RequestChanges =>
        [PostReview(it.id, pr, RequestChanges), SetCommitStatus(it.id, pr, Fail), NotifyReview(it.id, ReviewFeedback(it.review.round))]
      case NoVerdict =>
        if it.review.completed && cfg.skipReview then [SetCommitStatus(it.id, pr, Pass)]
        else if it.review.workspace.Workspace? && LivenessOf(it, snap).Dead? then [SetCommitStatus(it.id, pr, Fail)]
        else []
    else if it.state.ReviewPending? && it.review.completed && cfg.skipReview then [SetCommitStatus(it.id, pr, Pass)]
    else []
  }

  lemma PublishedTwo(a: Action, b: Action)
    ensures Published([a, b]) == (if Public(a) then [a] else []) + (if Public(b) then [b] else [])
  {
    PublishedOne(a);
    PublishedOne(b);
    PublishedConcat([a], [b]);
    assert [a, b] == [a] + [b];
  }

  lemma RunningPublishes(cfg: Config, it: Item, snap: Snapshot, now: int)
    requires it.state.Reviewing? && !ExternallyMerged(it, snap) && snap.reviewVerdict.NoVerdict?
    ensures var step := HandleReviewRunning(cfg, it, snap, now);
      && Publishes(step, Verdicts(cfg, it, snap))
      && (step.Step? && it.review.completed && cfg.skipReview ==> Published(step.actions) == Verdicts(cfg, it, snap))
  {
    hide PassAndEvaluate, PlanRebaseConflictAction, Publishes, Published, Transition, CountCiFailure;
    var seen := if it.review.workspace.Workspace? then CountLiveness(it, snap) else it;
    var clean := [CleanReview(it.id)];
    var passes, fails := SetCommitStatus(it.id, it.pr.number, Pass), SetCommitStatus(it.id, it.pr.number, Fail);
    PublishedTwo(clean[0], passes);
    PublishedTwo(clean[0], fails);
    assert clean + [passes] == [clean[0], passes] && clean + [fails] == [clean[0], fails];
    assert [] + [passes] == [passes] && [] + [fails] == [fails];
    PassPublishes(cfg, it, snap, clean + [SetCommitStatus(it.id, it.pr.number, Pass)], now);
    PassPublishes(cfg, seen, snap, clean + [SetCommitStatus(it.id, it.pr.number, Fail)], now);
    CiEndsReviewPrivate(cfg, it, seen, now);
  }

  lemma CiEndsReviewPrivate(cfg: Config, it: Item, seen: Item, now: int)
    ensures var failed, pending, clean := Transition(seen, CiFailed, now), Transition(seen, CiPending, now), [CleanReview(it.id)];
      && (failed.Illegal? ==> Publishes(Throw(failed.from, failed.to), []))
      && (failed.Moved? ==>
            && Publishes(PlanRebaseConflictAction(cfg, CountCiFailure(failed.item), now).After(clean), [])
            && Publishes(Step(CountCiFailure(failed.item), clean + [NotifyCiFailure(it.id, it.pr.number)]), []))
      && (pending.Illegal? ==> Publishes(Throw(pending.from, pending.to), []))
      && (pending.Moved? ==> Publishes(PlanRebaseConflictAction(cfg, pending.item, now).After(clean), []))
      && Publishes(Step(seen, []), [])
  {
    hide PlanRebaseConflictAction, Publishes, Transition;
    var failed, pending, clean := Transition(seen, CiFailed, now), Transition(seen, CiPending, now), [CleanReview(it.id)];
    NothingPublished(Step(seen, []));
    if failed.Moved? {
      var counted := CountCiFailure(failed.item);
      PlanPrivate(cfg, counted, now);
      NothingPublished(PlanRebaseConflictAction(cfg, counted, now));
      AfterPrivate(PlanRebaseConflictAction(cfg, counted, now), clean);
      NothingPublished(Step(counted, clean + [NotifyCiFailure(it.id, it.pr.number)]));
    } else {
      ThrowPublishes(failed, []);
    }
    if pending.Moved? {
      PlanPrivate(cfg, pending.item, now);
      NothingPublished(PlanRebaseConflictAction(cfg, pending.item, now));
      AfterPrivate(PlanRebaseConflictAction(cfg, pending.item, now), clean);
    } else {
      ThrowPublishes(pending, []);
    }
  }

  /** The review is settled: approved, sent back, or skipped. */
  predicate ReviewSettled(cfg: Config, it: Item, snap: Snapshot) {
    !snap.reviewVerdict.NoVerdict? || (it.review.completed && cfg.skipReview)
  }

  lemma ReviewingPublishes(cfg: Config, it: Item, snap: Snapshot, now: int)
    requires it.state.Reviewing? && !ExternallyMerged(it, snap)
    ensures var step := HandleReviewing(cfg, it, snap, now);
      && Publishes(step, Verdicts(cfg, it, snap))
      && (step.Step? && ReviewSettled(cfg, it, snap) ==> Published(step.actions) == Verdicts(cfg, it, snap))
  {
    hide PassAndEvaluate, HandleReviewRunning, Transition, Publishes;
    match snap.reviewVerdict
    case Approve =>
      var approved := it.(review := it.review.(completed := true, lastReviewed := snap.headSha, lastApproved := snap.headSha));
      var clean, post, status := CleanReview(it.id), PostReview(it.id, it.pr.number, Approve), SetCommitStatus(it.id, it.pr.number, Pass);
      PublishedTwo(post, status);
      PublishedConcat([clean], [post, status]);
      PublishedOne(clean);
      assert [clean, post, status] == [clean] + [post, status];
      assert [] + ([post] + [status]) == [post, status];
      PassPublishes(cfg, approved, snap, [clean, post, status], now);
    case RequestChanges => ChangesPublish(cfg, it, snap, now);
    case NoVerdict => RunningPublishes(cfg, it, snap, now);
  }

  lemma PublishedOne(a: Action)
    ensures Published([a]) == if Public(a) then [a] else []
  {
    assert [a][1..] == [];
  }

  lemma ChangesPublish(cfg: Config, it: Item, snap: Snapshot, now: int)
    requires it.state.Reviewing? && !ExternallyMerged(it, snap) && snap.reviewVerdict.RequestChanges?
    ensures var step := HandleReviewing(cfg, it, snap, now);
      && Publishes(step, Verdicts(cfg, it, snap))
      && (step.Step? ==> Published(step.actions) == Verdicts(cfg, it, snap))
  {
    hide Transition;
    var step := HandleReviewing(cfg, it, snap, now);
    if step.Step? {
      assert step.actions == [step.actions[0], step.actions[1]] + [step.actions[2], step.actions[3]];
      PublishedConcat([step.actions[0], step.actions[1]], [step.actions[2], step.actions[3]]);
      PublishedTwo(step.actions[0], step.actions[1]);
      PublishedTwo(step.actions[2], step.actions[3]);
    }
  }

  lemma FailFromReviewPrivate(cfg: Config, it: Item, snap: Snapshot, before: seq<Action>, now: int)
    requires Private(before)
    ensures PublishesNothing(FailCiFromReview(cfg, it, snap, before, now))
  {
    hide Transition;
  }

  lemma RecoverPublishes(cfg: Config, it: Item, snap: Snapshot, before: seq<Action>, now: int)
    requires Private(before)
    ensures Publishes(NudgeOrRecoverReview(cfg, it, snap, before, now), [])
  {
    hide PlanRebaseConflictAction, PassAndEvaluate, InboxWaitStalled, Publishes;
    PlanPrivate(cfg, it, now);
    var nudged := if snap.isMergeable.No? then PlanRebaseConflictAction(cfg, it, now) else Step(it, []);
    PassPrivate(cfg, ForgetReview(nudged.item), snap, before + nudged.actions, now);
    NothingPublished(nudged);
    AfterPrivate(nudged, before);
  }

  lemma AwaitPrivate(it: Item, snap: Snapshot, before: seq<Action>, now: int)
    requires Private(before)
    ensures PublishesNothing(AwaitFix(it, snap, before, now))
  {
    hide RespawnForFeedback;
    var seen := if it.session.workspace.NoWorkspace? then it else CountLiveness(it, snap);
    RespawnPrivate(seen, if it.feedback.message.NoMessage? then ReviewRequestedChanges else it.feedback.message, now);
  }

  lemma SettledPublishes(cfg: Config, it: Item, snap: Snapshot, before: seq<Action>, now: int)
    requires Private(before)
    ensures Publishes(HandleSettledReview(cfg, it, snap, before, now), [])
  {
    hide EvaluateMerge, RespawnForFeedback, FailCiFromReview, AwaitFix, RestartCi, PassAndEvaluate, NudgeOrRecoverReview, Publishes,
         Private;
    EvaluatePublishes(cfg, it, snap, now);
    AfterPrivate(EvaluateMerge(cfg, it, snap, now), before);
    NothingPublished(Step(it, before));
    var message := if it.feedback.message.NoMessage? then GitHubRequestedChanges else it.feedback.message;
    RespawnPrivate(it, message, now);
    NothingPublished(RespawnForFeedback(it, message, now));
    FailFromReviewPrivate(cfg, it, snap, before, now);
    NothingPublished(FailCiFromReview(cfg, it, snap, before, now));
    AwaitPrivate(it, snap, before, now);
    NothingPublished(AwaitFix(it, snap, before, now));
    RestartPrivate(it, snap, before, now);
    NothingPublished(RestartCi(it, snap, before, now));
    PassPrivate(cfg, it, snap, before, now);
    RecoverPublishes(cfg, it, snap, before, now);
  }

  lemma AnsweredPublishes(cfg: Config, it: Item, snap: Snapshot, before: seq<Action>, now: int)
    requires Private(before)
    ensures Publishes(HandleAnsweredReview(cfg, it, snap, before, now), [])
  {
    hide ContinuePendingFeedbackHandoff, ResolvePendingFeedbackBatch, HandleSettledReview, Publishes, Private;
    HandoffPrivate(it, snap, now);
    NothingPublished(ContinuePendingFeedbackHandoff(it, snap, now));
    ResolvePrivate(it, snap, now);
    NothingPublished(ResolvePendingFeedbackBatch(it, snap, now));
    SettledPublishes(cfg, it, snap, before, now);
  }

  lemma ReviewPendingPublishes(cfg: Config, it: Item, snap: Snapshot, now: int)
    requires it.state.ReviewPending? && !ExternallyMerged(it, snap)
    ensures var step := HandleReviewPending(cfg, it, snap, now);
      && Publishes(step, Verdicts(cfg, it, snap))
      && (step.Step? && it.review.completed && cfg.skipReview ==> Published(step.actions) == Verdicts(cfg, it, snap))
  {
    hide PassAndEvaluate, TryHandleNoNewInfo, TryHandlePushback, HandleAnsweredReview, RestartCi, Publishes;
    var status := SetCommitStatus(it.id, it.pr.number, Pass);
    PublishedOne(status);
    PassPublishes(cfg, it, snap, [status], now);
    SettlePrivate(it, snap, now);
    NothingPublished(TryHandleNoNewInfo(it, snap, now));
    PushbackPublishes(cfg, it, snap, now);
    var done, signal := FinishFeedback(it), [ClearFeedbackDone(it.id)];
    RestartPrivate(done, snap, signal, now);
    NothingPublished(RestartCi(done, snap, signal, now));
    PassPrivate(cfg, done, snap, signal, now);
    AnsweredPublishes(cfg, done, snap, signal, now);
    AnsweredPublishes(cfg, it, snap, [], now);
  }

  lemma MergingPrivate(cfg: Config, it: Item, snap: Snapshot, now: int)
    ensures PublishesNothing(HandleMerging(cfg, it, snap, now))
  {
    hide ContinuePendingFeedbackHandoff, ResolvePendingFeedbackBatch, Transition;
    HandoffPrivate(it, snap, now);
    ResolvePrivate(it, snap, now);
  }

  lemma FixingPublishes(cfg: Config, it: Item, snap: Snapshot, now: int)
    ensures Publishes(HandleFixingForward(cfg, it, snap, now), [])
  {
    hide HandleCiPending, Transition, Publishes;
    if RepairPrVisible(snap) && !snap.prState.PrMerged? {
      var pending := Transition(AdoptRepairPr(it, snap.prNumber.n), CiPending, now);
      if pending.Moved? {
        CiPendingPublishes(cfg, pending.item, snap, now);
      } else {
        ThrowPublishes(pending, []);
      }
    } else {
      FixingEndsPrivate(cfg, it, snap, now);
      NothingPublished(HandleFixingForward(cfg, it, snap, now));
    }
  }

  lemma FixingEndsPrivate(cfg: Config, it: Item, snap: Snapshot, now: int)
    requires !(RepairPrVisible(snap) && !snap.prState.PrMerged?)
    ensures PublishesNothing(HandleFixingForward(cfg, it, snap, now))
  {
    hide HandleCiPending, Transition;
  }

  lemma PostMergePrivate(cfg: Config, it: Item, snap: Snapshot, now: int)
    requires it.state.Merged? || it.state.ForwardFixPending? || it.state.FixForwardFailed?
    ensures PublishesNothing(Handle(cfg, it, snap, now))
  {
    hide Transition;
  }

  // ---- A whole poll -----------------------------------------------------------------------

  lemma HandlePublishes(cfg: Config, it: Item, snap: Snapshot, now: int)
    requires !ExternallyMerged(it, snap)
    ensures var step := Handle(cfg, it, snap, now);
      && Publishes(step, Verdicts(cfg, it, snap))
      && (step.Step? && Verdicts(cfg, it, snap) != [] && ReviewSettled(cfg, it, snap) ==> Published(step.actions) == Verdicts(cfg, it, snap))
  {
    hide HandleLaunching, HandleImplementing, HandleCiPending, HandleCiPassed, HandleCiFailed, HandleRebasing, HandleReviewing,
         HandleReviewPending, HandleMerging, HandleFixingForward, HandleMerged, HandleForwardFixPending, HandleFixForwardFailed,
         Publishes, Private;
    match it.state {
      case Launching =>
        LaunchingPrivate(cfg, it, snap, now);
        NothingPublished(HandleLaunching(cfg, it, snap, now));
      case Implementing => ImplementingPublishes(cfg, it, snap, now);
      case CiPending => CiPendingPublishes(cfg, it, snap, now);
      case CiPassed => CiPassedPublishes(cfg, it, snap, now);
      case CiFailed => CiFailedPublishes(cfg, it, snap, now);
      case Rebasing =>
        RebasingPrivate(it, snap, now);
        NothingPublished(HandleRebasing(it, snap, now));
      case Reviewing => ReviewingPublishes(cfg, it, snap, now);
      case ReviewPending => ReviewPendingPublishes(cfg, it, snap, now);
      case Merging =>
        MergingPrivate(cfg, it, snap, now);
        NothingPublished(HandleMerging(cfg, it, snap, now));
      case FixingForward => FixingPublishes(cfg, it, snap, now);
      case Queued => IdlePublishes(it);
      case Ready => IdlePublishes(it);
      case Done => IdlePublishes(it);
      case Blocked => IdlePublishes(it);
      case Stuck => IdlePublishes(it);
      case _ =>
        PostMergePrivate(cfg, it, snap, now);
        NothingPublished(Handle(cfg, it, snap, now));
    }
  }

  lemma IdlePublishes(it: Item)
    ensures Publishes(Step(it, []), [])
  {
  }

  /** The last step of a poll publishes nothing, and leaves a running review where it is. */
  lemma TailPrivate(it: Item, snap: Snapshot, now: int)
    ensures PublishesNothing(Tail(it, snap, now))
    ensures var step := Tail(it, snap, now);
      it.state.Reviewing? && !it.session.parked ==>
        step.Step? && step.item.state.Reviewing? && !step.item.session.parked && step.item.id == it.id && step.item.pr == it.pr
  {
    hide Private, RespawnForFeedback;
    ResolvePrivate(it, snap, now);
    NonePrivate();
    if it.state.Reviewing? && !it.session.parked {
      DeliveryInReview(it, snap, now);
    }
  }

  lemma DeliveryInReview(it: Item, snap: Snapshot, now: int)
    requires it.state.Reviewing? && !it.session.parked
    ensures var step := Tail(it, snap, now);
      step.Step? && step.item.state.Reviewing? && !step.item.session.parked && step.item.id == it.id && step.item.pr == it.pr
  {
  }

  /**
   * Main result: what every poll publishes about the item's review. The verdict that was read is
   * posted on its pull request, with a passing commit status for an approval and a failing one and a
   * message for the implementer for requested changes; a drained review passes and one whose reviewer
   * died fails the commit. Beyond that a poll only announces a round it starts, and never in a
   * poll that settles a review.
   */
  lemma PublishesExactly(cfg: Config, it: Item, snap: Snapshot, now: int)
    requires TransitionItem(cfg, it, snap, now).Step?
    ensures var step := TransitionItem(cfg, it, snap, now);
      var told := Published(step.actions);
      && (told == Verdicts(cfg, it, snap) || (step.item.state.Reviewing? && told == Verdicts(cfg, it, snap) + Announcement(step.item)))
      && (Verdicts(cfg, it, snap) != [] && ReviewSettled(cfg, it, snap) ==> told == Verdicts(cfg, it, snap))
  {
    hide Seen, Handle, Tail, Verdicts, Published, Private;
    SeenStands(it, snap, now);
    var seen := Seen(it, snap, now);
    SameVerdicts(cfg, it, seen, snap);
    if ExternallyMerged(it, snap) {
      OutsidePrivate(cfg, it, snap, now);
    } else {
      HandlePublishes(cfg, seen, snap, now);
      var body := Handle(cfg, seen, snap, now);
      TailPrivate(body.item, snap, now);
      var tail := Tail(body.item, snap, now);
      PublishedConcat(body.actions, tail.actions);
      PrivatePublishesNothing(tail.actions);
      assert Published(body.actions) + [] == Published(body.actions);
    }
  }

  lemma SameVerdicts(cfg: Config, it: Item, seen: Item, snap: Snapshot)
    requires seen == it.(rebase := seen.rebase, feedback := seen.feedback, repair := seen.repair)
    ensures Verdicts(cfg, seen, snap) == Verdicts(cfg, it, snap)
    ensures ReviewSettled(cfg, seen, snap) <==> ReviewSettled(cfg, it, snap)
    ensures ExternallyMerged(seen, snap) <==> ExternallyMerged(it, snap)
  {
  }

  lemma OutsidePrivate(cfg: Config, it: Item, snap: Snapshot, now: int)
    requires ExternallyMerged(it, snap)
    ensures Verdicts(cfg, it, snap) == []
    ensures var step := InterceptExternalMerge(RecordMergeCommit(it, snap), snap, now); step.Step? ==> Published(step.actions) == []
  {
    hide Transition;
    var step := InterceptExternalMerge(RecordMergeCommit(it, snap), snap, now);
    if step.Step? {
      PrivatePublishesNothing(step.actions);
    }
  }

  // ---- Requested changes ------------------------------------------------------------------

  /**
   * Main result: after requested changes the head is the reviewed commit and the item waits in
   * review-pending with the feedback of this round, exactly unless a batch of comments falls due in
   * the same poll and its worker is gone: then it is relaunched for the comments.
   */
  lemma ChangesRequestedExactly(cfg: Config, it: Item, snap: Snapshot, now: int)
    requires it.state.Reviewing? && ParkedOk(it) && snap.reviewVerdict.RequestChanges? && !snap.prState.PrMerged?
    ensures var step := TransitionItem(cfg, it, snap, now);
      var held := IngestPendingFeedbackBatch(it, snap);
      var gone := it.session.workspace.NoWorkspace? || LivenessOf(it, snap).Dead?;
      && step.Step? && step.item.review.lastReviewed == snap.headSha
      && step.item.state == (if BatchDue(held, now) && gone then Ready else ReviewPending)
      && !step.item.session.parked && step.item.review.round == it.review.round
      && (!BatchDue(held, now) ==> step.item.feedback == held.feedback.(message := ReviewFeedback(it.review.round)))
  {
    hide Seen, Tail, IngestPendingFeedbackBatch;
    SeenStands(it, snap, now);
    var seen := Seen(it, snap, now);
    IngestKeepsMessage(it, snap);
    var body := HandleReviewing(cfg, seen, snap, now);
    assert body.item.session == seen.session.(parked := false, timeoutDeadline := Undefined, timeoutExtensions := 0);
    TailInReviewPending(body.item, snap, now);
  }

  lemma TailInReviewPending(it: Item, snap: Snapshot, now: int)
    requires it.state.ReviewPending? && !it.session.parked
    ensures var step := Tail(it, snap, now);
      var gone := it.session.workspace.NoWorkspace? || LivenessOf(it, snap).Dead?;
      && step.Step? && step.item.state == (if BatchDue(it, now) && gone then Ready else ReviewPending)
      && (it.review.lastReviewed == snap.headSha ==> step.item.review.lastReviewed == snap.headSha)
      && !step.item.session.parked && step.item.review.round == it.review.round
      && (!BatchDue(it, now) ==> step.item == it)
  {
  }
}
