/**
 * What every handler of module Lifecycle keeps, one lemma a handler: it does not throw, it keeps
 * parked sessions where they belong, it accounts for review rounds and launches, and it merges
 * only through the gate.
 */
module LifecycleFacts {
  import opened OrchestratorTypes
  import opened OrchestratorGuards
  import opened Lifecycle

  /** The launches and merges of one item among some actions; `foreign` ones break the rules. */
  datatype Tally = Tally(reviews: int, fixers: int, merges: int, foreign: int)

  function Add(a: Tally, b: Tally): Tally {
    Tally(a.reviews + b.reviews, a.fixers + b.fixers, a.merges + b.merges, a.foreign + b.foreign)
  }

  predicate Notable(a: Action) {
    a.Launch? || a.LaunchReview? || a.LaunchForwardFixer? || a.Merge?
  }

  /** An action is foreign when it names another item, launches a new worker, or merges with the wrong admin flag. */
  function TallyOf(cfg: Config, id: Id, a: Action): Tally {
    var own := a.id == id;
    Tally(if own && a.LaunchReview? then 1 else 0,
          if own && a.LaunchForwardFixer? then 1 else 0,
          if own && a.Merge? then 1 else 0,
          if Notable(a) && (!own || a.Launch? || (a.Merge? && a.admin != cfg.mergeStrategy.Bypass?)) then 1 else 0)
  }

  function Count(cfg: Config, id: Id, actions: seq<Action>): Tally {
    if actions == [] then Tally(0, 0, 0, 0) else Add(TallyOf(cfg, id, actions[0]), Count(cfg, id, actions[1..]))
  }

  lemma AddAssociates(a: Tally, b: Tally, c: Tally)
    ensures Add(a, Add(b, c)) == Add(Add(a, b), c)
  {
  }

  lemma {:induction false} CountConcat(cfg: Config, id: Id, a: seq<Action>, b: seq<Action>)
    ensures Count(cfg, id, a + b) == Add(Count(cfg, id, a), Count(cfg, id, b))
  {
    if a == [] {
      assert a + b == b;
    } else {
      assert (a + b)[1..] == a[1..] + b;
      calc {
        Count(cfg, id, a + b);
        Add(TallyOf(cfg, id, a[0]), Count(cfg, id, a[1..] + b));
        { CountConcat(cfg, id, a[1..], b); }
        Add(TallyOf(cfg, id, a[0]), Add(Count(cfg, id, a[1..]), Count(cfg, id, b)));
        { AddAssociates(TallyOf(cfg, id, a[0]), Count(cfg, id, a[1..]), Count(cfg, id, b)); }
        Add(Count(cfg, id, a), Count(cfg, id, b));
      }
    }
  }

  lemma {:induction false} CountNatural(cfg: Config, id: Id, actions: seq<Action>)
    ensures var t := Count(cfg, id, actions); t.reviews >= 0 && t.fixers >= 0 && t.merges >= 0 && t.foreign >= 0
  {
    if actions != [] {
      CountNatural(cfg, id, actions[1..]);
    }
  }

  lemma CountOne(cfg: Config, id: Id, a: Action)
    ensures Count(cfg, id, [a]) == TallyOf(cfg, id, a)
  {
    hide TallyOf;
    assert [a][1..] == [];
  }

  lemma CountReviewLaunch(cfg: Config, id: Id, launch: Action, status: Action)
    requires launch.LaunchReview? && launch.id == id && status.SetCommitStatus?
    ensures Count(cfg, id, [launch, status]) == Tally(1, 0, 0, 0)
  {
    hide Count;
    CountOne(cfg, id, launch);
    CountOne(cfg, id, status);
    assert [launch, status] == [launch] + [status];
    CountConcat(cfg, id, [launch], [status]);
  }

  /** No launch and no merge. */
  predicate Quiet(actions: seq<Action>) {
    forall i :: 0 <= i < |actions| ==> !Notable(actions[i])
  }

  lemma {:induction false} CountQuiet(cfg: Config, id: Id, actions: seq<Action>)
    requires Quiet(actions)
    ensures Count(cfg, id, actions) == Tally(0, 0, 0, 0)
  {
    if actions != [] {
      CountQuiet(cfg, id, actions[1..]);
    }
  }

  // ---- The relation every handler satisfies -----------------------------------------------

  /** Sessions are parked only while an item waits for a human, or after it got stuck. */
  predicate ParkedOk(it: Item) {
    it.session.parked ==> it.state.ReviewPending? || it.state.Stuck?
  }

  /** A stuck item whose worker still runs in a parked session. */
  predicate ParkedStuck(it: Item) {
    it.state.Stuck? && it.session.parked
  }

  /** The states of the repair cycle after a merge broke the default branch. */
  predicate Repairing(s: State) {
    s.FixForwardFailed? || s.FixingForward?
  }

  /** The conditions under which evaluateMerge lets an item into merging. */
  predicate GateOpen(cfg: Config, it: Item) {
    it.review.completed && !it.workItem.requiresManualReview && !cfg.mergeStrategy.Manual?
  }

  /** The item keeps its payload, and starts merging only where no human has to review or merge it. */
  predicate KeepsPayload(cfg: Config, it: Item, next: Item) {
    next.workItem == it.workItem && (next.state.Merging? ==> it.state.Merging? || (!it.workItem.requiresManualReview && !cfg.mergeStrategy.Manual?))
  }

  /** The item is vouched for: reviewed now, or approved at some commit. */
  predicate Vouched(it: Item) {
    it.review.completed || it.review.lastApproved.Ref?
  }

  /** Nothing a human said is still on its way to a worker. */
  predicate FeedbackSettled(it: Item) {
    !HasBatch(it) && !HandoffPending(it)
  }

  /** A CI failure notification is on record although the item has left ci-failed for good. */
  predicate Flagged(it: Item) {
    && it.ci.notified
    && (it.state.CiPending? || it.state.CiPassed? || it.state.Reviewing? || it.state.ReviewPending? || it.state.Merging?)
  }

  /** What a handler keeps of the item's fields. */
  predicate KeepsItem(cfg: Config, it: Item, next: Item) {
    && next.id == it.id
    && next.workItem == it.workItem
    && ParkedOk(next)
    && next.repair.failCount == it.repair.failCount
    && (next.retryCount == it.retryCount || next.retryCount <= cfg.maxRetries)
    && next.mergeFailCount == it.mergeFailCount
    && (next.state.Merging? ==> if it.state.Merging? then next.review.completed == it.review.completed else GateOpen(cfg, next))
    && (ParkedStuck(next) ==> ParkedStuck(it))
    && (Flagged(next) ==> Flagged(it))
    && (Repairing(next.state) ==> next.state == it.state)
    && (Active(next.state) ==> Active(it.state))
    && (Terminal(it.state) ==> next.state == it.state)
    && (!cfg.skipReview && Vouched(next) ==> Vouched(it))
  }

  /** What a handler keeps, whatever the poll saw. */
  predicate Keeps(cfg: Config, it: Item, step: Step) {
    && step.Step?
    && KeepsItem(cfg, it, step.item)
    && var t := Count(cfg, it.id, step.actions);
    && step.item.review.round == it.review.round + t.reviews
    && (t.reviews > 0 ==> step.item.review.round <= cfg.maxReviewRounds)
    && t.fixers == 0 && t.foreign == 0
    && (t.merges > 0 ==> t.merges == 1 && step.item.state.Merging? && FeedbackSettled(step.item))
  }

  /** The step does nothing that is counted. */
  lemma QuietKeeps(cfg: Config, it: Item, step: Step)
    requires step.Step? && KeepsItem(cfg, it, step.item) && Quiet(step.actions)
    requires step.item.review.round == it.review.round
    ensures Keeps(cfg, it, step)
  {
    hide Count;
    CountQuiet(cfg, it.id, step.actions);
  }

  lemma {:induction false} AfterKeeps(cfg: Config, it: Item, step: Step, before: seq<Action>)
    requires Keeps(cfg, it, step) && Quiet(before)
    ensures Keeps(cfg, it, step.After(before))
  {
    hide Count;
    CountQuiet(cfg, it.id, before);
    CountConcat(cfg, it.id, before, step.actions);
  }

  /** A step may start from an item that differs from `it` only in what no clause of `Keeps` sees. */
  predicate Alike(it: Item, mid: Item) {
    && mid.id == it.id
    && mid.workItem == it.workItem
    && mid.repair.failCount == it.repair.failCount
    && mid.retryCount == it.retryCount
    && mid.mergeFailCount == it.mergeFailCount
    && mid.review.round == it.review.round
    && (Vouched(mid) ==> Vouched(it))
    && (mid.state.Merging? ==> it.state.Merging? && mid.review.completed == it.review.completed)
    && (ParkedStuck(mid) ==> ParkedStuck(it))
    && (Flagged(mid) ==> Flagged(it))
    && (Repairing(mid.state) ==> mid.state == it.state)
    && (Active(mid.state) ==> Active(it.state))
    && (Terminal(it.state) ==> mid.state == it.state)
  }

  lemma FromAlike(cfg: Config, it: Item, mid: Item, step: Step)
    requires Alike(it, mid) && Keeps(cfg, mid, step)
    requires step.item.state.Merging? ==> (mid.state.Merging? <==> it.state.Merging?)
    ensures Keeps(cfg, it, step)
  {
    hide Count;
  }

  // ---- Helpers ----------------------------------------------------------------------------

  lemma PlanRebaseFacts(cfg: Config, it: Item, now: int)
    requires ParkedOk(it)
    ensures Keeps(cfg, it, PlanRebaseConflictAction(cfg, it, now))
    ensures Quiet(PlanRebaseConflictAction(cfg, it, now).actions)
    ensures PlanRebaseConflictAction(cfg, it, now).item
         == it.(rebase := PlanRebaseConflictAction(cfg, it, now).item.rebase)
  {
    QuietKeeps(cfg, it, PlanRebaseConflictAction(cfg, it, now));
  }

  lemma RespawnFacts(cfg: Config, it: Item, message: Message, now: int)
    requires it.state.Ready? || Legal(it.state, Ready)
    requires ParkedOk(it)
    ensures Keeps(cfg, it, RespawnForFeedback(it, message, now))
    ensures RespawnForFeedback(it, message, now).item.state.Ready?
  {
    QuietKeeps(cfg, it, RespawnForFeedback(it, message, now));
  }

  lemma RespawnIsQuiet(it: Item, message: Message, now: int)
    ensures var step := RespawnForFeedback(it, message, now); step.Step? ==> Quiet(step.actions)
  {
  }

  lemma RespawnCiFixFacts(cfg: Config, it: Item, now: int)
    requires it.state.CiFailed? && ParkedOk(it)
    ensures Keeps(cfg, it, RespawnCiFixWorker(it, now))
  {
    QuietKeeps(cfg, it, RespawnCiFixWorker(it, now));
  }

  lemma StuckOrRetryFacts(cfg: Config, it: Item, now: int)
    requires it.state.Launching? || it.state.Implementing?
    ensures Keeps(cfg, it, StuckOrRetry(cfg, it, now))
  {
    QuietKeeps(cfg, it, StuckOrRetry(cfg, it, now));
  }

  lemma DeliverFacts(cfg: Config, it: Item, snap: Snapshot, now: int)
    requires ParkedOk(it)
    ensures Keeps(cfg, it, DeliverBatch(it, snap, now))
  {
    hide ReopenReview, KeepsItem;
    ReopenStands(cfg, it, snap, now);
    QuietKeeps(cfg, it, DeliverBatch(it, snap, now));
  }

  lemma ReopenStands(cfg: Config, it: Item, snap: Snapshot, now: int)
    requires ParkedOk(it)
    ensures var reopened := ReopenReview(it, now);
      && reopened.Moved? && reopened.item.review.round == it.review.round
      && KeepsItem(cfg, it, reopened.item)
      && var seen := CountLiveness(reopened.item, snap);
      KeepsItem(cfg, it, seen) && KeepsItem(cfg, it, seen.(feedback := seen.feedback.(armed := true)))
  {
  }

  lemma ResolveFacts(cfg: Config, it: Item, snap: Snapshot, now: int)
    requires ParkedOk(it)
    requires !(ParkedStuck(it) && BatchDue(it, now))
    ensures var step := ResolvePendingFeedbackBatch(it, snap, now);
      if HasBatch(it) then Keeps(cfg, it, step) else step.Declined?
  {
    hide Count, RespawnForFeedback, DeliverBatch;
    if BatchDue(it, now) {
      var seen := SampleForDelivery(it, snap);
      var taken := TakeBatch(seen, snap);
      if FeedbackBatchDeliveryMode(it, snap).Wait? {
        QuietKeeps(cfg, it, Step(seen, []));
      } else if FeedbackBatchDeliveryMode(it, snap).Relaunch? {
        RespawnFacts(cfg, taken, taken.feedback.message, now);
        FromAlike(cfg, it, taken, RespawnForFeedback(taken, taken.feedback.message, now));
      } else {
        DeliverFacts(cfg, taken, snap, now);
        FromAlike(cfg, it, taken, DeliverBatch(taken, snap, now));
      }
    } else if HasBatch(it) {
      QuietKeeps(cfg, it, Step(it, []));
    }
  }

  lemma HandoffFacts(cfg: Config, it: Item, snap: Snapshot, now: int)
    requires it.state.CiPassed? || it.state.ReviewPending? || it.state.Merging?
    requires ParkedOk(it)
    ensures var step := ContinuePendingFeedbackHandoff(it, snap, now);
      if HandoffPending(it) then Keeps(cfg, it, step) && Quiet(step.actions) && !step.item.state.Merging? else step.Declined?
  {
    hide Count, RespawnForFeedback, HoldForHandoff, Keeps, Alike;
    if HandoffPending(it) {
      HoldFacts(it, snap, now);
      var held := HoldForHandoff(it, snap, now).item;
      var seen := CountLiveness(held, snap);
      HandoffRespawnFacts(cfg, it, held, now);
      HandoffRespawnFacts(cfg, it, seen, now);
      HeldFacts(cfg, it, seen, []);
      HeldFacts(cfg, it, seen.(feedback := seen.feedback.(armed := true)), [SendMessage(it.id, it.feedback.message)]);
    }
  }

  /** The item is held in review-pending and loses nothing that its bounds speak of. */
  predicate HeldBack(it: Item, held: Item) {
    && held == it.(state := held.state, lastTransition := held.lastTransition, session := held.session, ci := held.ci,
                rebase := held.rebase, review := it.review.(completed := held.review.completed, lastReviewed := held.review.lastReviewed),
                feedback := held.feedback)
    && held.state.ReviewPending? && (held.review.completed ==> it.review.completed) && (Flagged(held) ==> Flagged(it))
  }

  lemma HoldFacts(it: Item, snap: Snapshot, now: int)
    requires it.state.CiPassed? || it.state.ReviewPending? || it.state.Merging?
    ensures var held := HoldForHandoff(it, snap, now);
      held.Moved? && HeldBack(it, held.item) && HeldBack(it, CountLiveness(held.item, snap))
  {
  }

  lemma HandoffRespawnFacts(cfg: Config, it: Item, held: Item, now: int)
    requires HeldBack(it, held) && Active(it.state)
    ensures var step := RespawnForFeedback(held, it.feedback.message, now);
      Keeps(cfg, it, step) && Quiet(step.actions) && !step.item.state.Merging?
  {
    hide Count, RespawnForFeedback;
    RespawnFacts(cfg, held, it.feedback.message, now);
    FromAlike(cfg, it, held, RespawnForFeedback(held, it.feedback.message, now));
    RespawnIsQuiet(held, it.feedback.message, now);
  }

  lemma HeldFacts(cfg: Config, it: Item, held: Item, actions: seq<Action>)
    requires HeldBack(it, held) && Active(it.state) && Quiet(actions)
    ensures Keeps(cfg, it, Step(held, actions))
  {
    hide Count;
    QuietKeeps(cfg, it, Step(held, actions));
  }

  lemma NoNewInfoFacts(cfg: Config, it: Item, snap: Snapshot, now: int)
    requires it.state.CiPassed? || it.state.ReviewPending?
    requires ParkedOk(it)
    ensures var step := TryHandleNoNewInfo(it, snap, now); step.Declined? || Keeps(cfg, it, step)
  {
    hide Count;
    if !TryHandleNoNewInfo(it, snap, now).Declined? {
      QuietKeeps(cfg, it, TryHandleNoNewInfo(it, snap, now));
    }
  }

  lemma LaunchReviewRoundFacts(cfg: Config, it: Item, snap: Snapshot, now: int)
    requires it.state.CiPassed? || it.state.ReviewPending?
    requires ParkedOk(it) && !it.review.completed
    ensures Keeps(cfg, it, LaunchReviewRound(cfg, it, snap, now))
  {
    hide Count;
    var step := LaunchReviewRound(cfg, it, snap, now);
    if step.item.state.Reviewing? {
      var launch, status := LaunchReview(it.id, it.pr.number), SetCommitStatus(it.id, it.pr.number, InProgress);
      CountReviewLaunch(cfg, it.id, launch, status);
    } else {
      QuietKeeps(cfg, it, step);
    }
  }

  lemma HoldOrMergeFacts(cfg: Config, it: Item, snap: Snapshot, now: int)
    requires it.state.CiPassed? || it.state.ReviewPending?
    requires ParkedOk(it) && it.review.completed && FeedbackSettled(it)
    ensures var step := HoldOrMerge(cfg, it, snap, now);
      && Keeps(cfg, it, step)
      && (if NeedsHuman(cfg, it, snap) then step.item.state.ReviewPending? && Quiet(step.actions)
          else step.item.state.Merging? && step.actions == [Merge(it.id, it.pr.number, cfg.mergeStrategy.Bypass?)])
  {
    hide Count;
    if NeedsHuman(cfg, it, snap) {
      QuietKeeps(cfg, it, HoldOrMerge(cfg, it, snap, now));
    } else {
      var merge := Merge(it.id, it.pr.number, cfg.mergeStrategy.Bypass?);
      CountOne(cfg, it.id, merge);
    }
  }

  lemma EvaluateMergeFacts(cfg: Config, it: Item, snap: Snapshot, now: int)
    requires it.state.CiPassed? || it.state.ReviewPending?
    requires ParkedOk(it)
    ensures Keeps(cfg, it, EvaluateMerge(cfg, it, snap, now))
  {
    hide Count, TryHandleNoNewInfo, ContinuePendingFeedbackHandoff, ResolvePendingFeedbackBatch, LaunchReviewRound, HoldOrMerge;
    NoNewInfoFacts(cfg, it, snap, now);
    HandoffFacts(cfg, it, snap, now);
    ResolveFacts(cfg, it, snap, now);
    if !HandoffPending(it) && !HasBatch(it) && TryHandleNoNewInfo(it, snap, now).Declined? {
      var gated := it.(review := it.review.(completed := it.review.completed || cfg.skipReview));
      if gated.review.completed {
        HoldOrMergeFacts(cfg, gated, snap, now);
      } else {
        LaunchReviewRoundFacts(cfg, gated, snap, now);
      }
    }
  }

  // ---- Handlers ---------------------------------------------------------------------------

  lemma PassAndEvaluateFacts(cfg: Config, it: Item, snap: Snapshot, before: seq<Action>, now: int)
    requires Legal(it.state, CiPassed) && !it.state.Merging? && Quiet(before)
    ensures Keeps(cfg, it, PassAndEvaluate(cfg, it, snap, before, now))
  {
    hide Count, EvaluateMerge, Quiet;
    var passed := Enter(it, CiPassed, now);
    EvaluateMergeFacts(cfg, passed, snap, now);
    FromAlike(cfg, it, passed, EvaluateMerge(cfg, passed, snap, now));
    AfterKeeps(cfg, it, EvaluateMerge(cfg, passed, snap, now), before);
  }

  lemma RestartCiFacts(cfg: Config, it: Item, snap: Snapshot, before: seq<Action>, now: int)
    requires Legal(it.state, CiPending) && Active(it.state) && Quiet(before)
    ensures Keeps(cfg, it, RestartCi(it, snap, before, now))
  {
    hide Count, Quiet;
    QuietKeeps(cfg, it, RestartCi(it, snap, before, now));
  }

  lemma FailCiFacts(cfg: Config, it: Item, snap: Snapshot, now: int)
    requires Legal(it.state, CiFailed)
    ensures Keeps(cfg, it, FailCi(cfg, it, snap, now))
  {
    hide Count, PlanRebaseConflictAction;
    var counted := CountCiFailure(Enter(it, CiFailed, now));
    if snap.isMergeable.No? {
      PlanRebaseFacts(cfg, counted, now);
      FromAlike(cfg, it, counted, PlanRebaseConflictAction(cfg, counted, now));
    } else {
      QuietKeeps(cfg, it, FailCi(cfg, it, snap, now));
    }
  }

  lemma HandleCiPendingFacts(cfg: Config, it: Item, snap: Snapshot, now: int)
    requires it.state.CiPending? && ParkedOk(it)
    ensures Keeps(cfg, it, HandleCiPending(cfg, it, snap, now))
  {
    hide Count, FailCi, PlanRebaseConflictAction, PassAndEvaluate, ResolvePendingFeedbackBatch;
    FailCiFacts(cfg, it, snap, now);
    PlanRebaseFacts(cfg, it, now);
    PassAndEvaluateFacts(cfg, it, snap, [], now);
    ResolveFacts(cfg, it, snap, now);
    QuietKeeps(cfg, it, Step(it, []));
  }

  lemma HandleCiPassedFacts(cfg: Config, it: Item, snap: Snapshot, now: int)
    requires it.state.CiPassed? && ParkedOk(it)
    ensures Keeps(cfg, it, HandleCiPassed(cfg, it, snap, now))
  {
    hide Count, FailCi, PlanRebaseConflictAction, EvaluateMerge, RestartCi;
    FailCiFacts(cfg, it, snap, now);
    RestartCiFacts(cfg, it, snap, [], now);
    var pending := Enter(it, CiPending, now);
    PlanRebaseFacts(cfg, pending, now);
    FromAlike(cfg, it, pending, PlanRebaseConflictAction(cfg, pending, now));
    EvaluateMergeFacts(cfg, it, snap, now);
  }

  lemma HandleCiStillFailingFacts(cfg: Config, it: Item, snap: Snapshot, now: int)
    requires it.state.CiFailed? && ParkedOk(it)
    ensures Keeps(cfg, it, HandleCiStillFailing(it, snap, now))
  {
    hide Count, RespawnCiFixWorker, ResolvePendingFeedbackBatch;
    var notified := NotifyStillFailing(it, now);
    var seen := CountLiveness(notified.item, snap);
    assert Alike(it, seen) && seen.state.CiFailed? && ParkedOk(seen);
    if LivenessOf(notified.item, snap).Dead? || CiFixUnacknowledged(it, snap, now) {
      RespawnCiFixFacts(cfg, seen, now);
      FromAlike(cfg, it, seen, RespawnCiFixWorker(seen, now));
    } else {
      var feedback := ResolvePendingFeedbackBatch(seen, snap, now).OrStay(seen);
      ResolveFacts(cfg, seen, snap, now);
      QuietKeeps(cfg, seen, Step(seen, []));
      FromAlike(cfg, it, seen, feedback);
      AfterKeeps(cfg, it, feedback, notified.actions);
    }
  }

  /** A circuit-broken ci-failed item is left parked when its worker is still alive. */
  predicate BreaksParked(cfg: Config, it: Item, snap: Snapshot) {
    it.state.CiFailed? && it.ci.failCount > cfg.maxCiRetries && snap.workerAlive.Yes?
  }

  lemma HandleCiFailedFacts(cfg: Config, it: Item, snap: Snapshot, now: int)
    requires it.state.CiFailed? && ParkedOk(it)
    ensures var step := HandleCiFailed(cfg, it, snap, now);
      if BreaksParked(cfg, it, snap) then
        var stuck := Enter(it, Stuck, now);
        step == Step(stuck.(session := stuck.session.(parked := true)), [])
      else Keeps(cfg, it, step)
  {
    hide Count, HandleCiPassed, RestartCi, PlanRebaseConflictAction, HandleCiStillFailing;
    if it.ci.failCount > cfg.maxCiRetries {
      if !snap.workerAlive.Yes? {
        QuietKeeps(cfg, it, HandleCiFailed(cfg, it, snap, now));
      }
    } else {
      var passed := Enter(it, CiPassed, now);
      HandleCiPassedFacts(cfg, passed, snap, now);
      FromAlike(cfg, it, passed, HandleCiPassed(cfg, passed, snap, now));
      RestartCiFacts(cfg, it, snap, [], now);
      PlanRebaseFacts(cfg, it, now);
      HandleCiStillFailingFacts(cfg, it, snap, now);
    }
  }

  lemma ResumeCiFacts(cfg: Config, it: Item, snap: Snapshot, signal: seq<Action>, now: int)
    requires it.state.Implementing? || it.state.ReviewPending?
    requires Quiet(signal)
    ensures Keeps(cfg, it, ResumeCi(cfg, it, snap, signal, now))
  {
    hide Count, HandleCiPending;
    var pending := Enter(it, CiPending, now);
    var sync := if it.pr.baseBranch.Ref? then [SyncStackComments(it.id)] else [];
    HandleCiPendingFacts(cfg, pending, snap, now);
    FromAlike(cfg, it, pending, HandleCiPending(cfg, pending, snap, now));
    AfterKeeps(cfg, it, HandleCiPending(cfg, pending, snap, now), signal + sync);
  }

  lemma PushbackFacts(cfg: Config, it: Item, snap: Snapshot, now: int)
    requires it.state.Implementing? || it.state.ReviewPending?
    ensures var step := TryHandlePushback(cfg, it, snap, now); step.Declined? || Keeps(cfg, it, step)
  {
    hide Count, ResumeCi;
    var recorded := RecordPushback(it, snap);
    ResumeCiFacts(cfg, recorded, snap, [ClearPushback(it.id)], now);
    FromAlike(cfg, it, recorded, ResumeCi(cfg, recorded, snap, [ClearPushback(it.id)], now));
  }

  /** An implementing worker reports "no new info" on its open pull request: the edge the table lacks. */
  predicate WakesSpuriously(it: Item, snap: Snapshot) {
    it.state.Implementing? && snap.prNumber.Ref? && snap.prState.Open? && snap.noNewInfo && UnchangedSinceReview(it, snap)
  }

  lemma HandleOpenPrFacts(cfg: Config, it: Item, snap: Snapshot, now: int)
    requires it.state.Implementing? && snap.prNumber.Ref? && snap.prState.Open?
    ensures var step := HandleOpenPr(cfg, it, snap, now);
      if WakesSpuriously(it, snap) then step == Throw(Implementing, ReviewPending)
      else step.Declined? || Keeps(cfg, it, step)
  {
    hide Count, ResumeCi, TryHandlePushback;
    var tracked, done := TrackPr(it, snap), TrackPr(FinishFeedback(it), snap);
    ResumeCiFacts(cfg, tracked, snap, [], now);
    FromAlike(cfg, it, tracked, ResumeCi(cfg, tracked, snap, [], now));
    ResumeCiFacts(cfg, done, snap, [ClearFeedbackDone(it.id)], now);
    FromAlike(cfg, it, done, ResumeCi(cfg, done, snap, [ClearFeedbackDone(it.id)], now));
    PushbackFacts(cfg, it, snap, now);
  }

  lemma OnTimeoutFacts(cfg: Config, it: Item, snap: Snapshot, now: int)
    requires it.state.Implementing? && ParkedOk(it)
    ensures Keeps(cfg, it, OnTimeout(cfg, it, snap, now))
  {
    hide Count, StuckOrRetry;
    if DefersTimeout(cfg, it, now) || IsRecoverableHeadlessStop(it, snap) {
      QuietKeeps(cfg, it, OnTimeout(cfg, it, snap, now));
    } else {
      StuckOrRetryFacts(cfg, it, now);
    }
  }

  lemma HandleWorkingFacts(cfg: Config, it: Item, snap: Snapshot, now: int)
    requires it.state.Implementing? && ParkedOk(it)
    ensures Keeps(cfg, it, HandleWorking(cfg, it, snap, now))
  {
    hide Count, StuckOrRetry, OnTimeout, RespawnForFeedback, WorkTimedOut, InboxWaitStalled;
    var seen := MarkWorking(it, snap, now);
    assert Alike(it, seen) && seen.state.Implementing? && ParkedOk(seen);
    StuckOrRetryFacts(cfg, seen, now);
    OnTimeoutFacts(cfg, seen, snap, now);
    RespawnFacts(cfg, seen, seen.feedback.message, now);
    QuietKeeps(cfg, seen, Step(seen, []));
    QuietKeeps(cfg, seen, RecoverHeadlessWorker(seen, now));
    FromAlike(cfg, it, seen, HandleWorking(cfg, it, snap, now));
  }

  lemma HandleImplementingFacts(cfg: Config, it: Item, snap: Snapshot, now: int)
    requires it.state.Implementing? && ParkedOk(it)
    ensures var step := HandleImplementing(cfg, it, snap, now);
      if WakesSpuriously(it, snap) then step == Throw(Implementing, ReviewPending) else Keeps(cfg, it, step)
  {
    hide Count, HandleOpenPr, HandleWorking;
    if snap.prNumber.Ref? && snap.prState.Open? {
      HandleOpenPrFacts(cfg, it, snap, now);
      var tracked := TrackPr(it, snap);
      HandleWorkingFacts(cfg, tracked, snap, now);
      FromAlike(cfg, it, tracked, HandleWorking(cfg, tracked, snap, now));
    } else {
      HandleWorkingFacts(cfg, it, snap, now);
    }
  }

  lemma HandleLaunchingFacts(cfg: Config, it: Item, snap: Snapshot, now: int)
    requires it.state.Launching? && ParkedOk(it)
    ensures Keeps(cfg, it, HandleLaunching(cfg, it, snap, now))
  {
    hide Count, StuckOrRetry;
    var seen := CountLiveness(it, snap);
    StuckOrRetryFacts(cfg, seen, now);
    FromAlike(cfg, it, seen, StuckOrRetry(cfg, seen, now));
    QuietKeeps(cfg, it, Step(seen, []));
    QuietKeeps(cfg, it, Step(Enter(seen, Implementing, now), []));
    QuietKeeps(cfg, it, Step(OpenGraceWindow(cfg, seen, now), []));
  }

  lemma HandleRebasingFacts(cfg: Config, it: Item, snap: Snapshot, now: int)
    requires it.state.Rebasing? && ParkedOk(it)
    ensures Keeps(cfg, it, HandleRebasing(it, snap, now))
  {
    hide Count, RestartCi;
    RestartCiFacts(cfg, it, snap, [CleanRebaser(it.id)], now);
    QuietKeeps(cfg, it, Step(it, []));
    QuietKeeps(cfg, it, Step(CountLiveness(it, snap), []));
    QuietKeeps(cfg, it, Step(Enter(CountLiveness(it, snap), Stuck, now), [CleanRebaser(it.id)]));
  }

  lemma HandleReviewRunningFacts(cfg: Config, it: Item, snap: Snapshot, now: int)
    requires it.state.Reviewing? && ParkedOk(it)
    ensures Keeps(cfg, it, HandleReviewRunning(cfg, it, snap, now))
  {
    hide Count, PassAndEvaluate, PlanRebaseConflictAction, Keeps, Enter;
    var seen := if it.review.workspace.Workspace? then CountLiveness(it, snap) else it;
    var clean := [CleanReview(it.id)];
    ReviewerSeen(it, seen, snap);
    PassAndEvaluateFacts(cfg, it, snap, clean + [SetCommitStatus(it.id, it.pr.number, Pass)], now);
    PassAndEvaluateFacts(cfg, seen, snap, clean + [SetCommitStatus(it.id, it.pr.number, Fail)], now);
    FromAlike(cfg, it, seen, PassAndEvaluate(cfg, seen, snap, clean + [SetCommitStatus(it.id, it.pr.number, Fail)], now));
    CiEndsReviewFacts(cfg, it, seen, now);
    QuietKeeps(cfg, it, Step(seen, []));
  }

  lemma ReviewerSeen(it: Item, seen: Item, snap: Snapshot)
    requires it.state.Reviewing? && ParkedOk(it) && (seen == it || seen == CountLiveness(it, snap))
    ensures Alike(it, seen) && seen.state.Reviewing? && ParkedOk(seen)
  {
  }

  /** A failed check or a conflict ends the review. */
  lemma CiEndsReviewFacts(cfg: Config, it: Item, seen: Item, now: int)
    requires Alike(it, seen) && seen.state.Reviewing? && ParkedOk(seen) && it.state.Reviewing?
    ensures var clean, failed := [CleanReview(it.id)], CountCiFailure(Enter(seen, CiFailed, now));
      && Keeps(cfg, it, PlanRebaseConflictAction(cfg, failed, now).After(clean))
      && Keeps(cfg, it, PlanRebaseConflictAction(cfg, Enter(seen, CiPending, now), now).After(clean))
      && Keeps(cfg, it, Step(failed, clean + [NotifyCiFailure(it.id, it.pr.number)]))
  {
    hide Count, PlanRebaseConflictAction;
    var failed := CountCiFailure(Enter(seen, CiFailed, now));
    AbortReviewFacts(cfg, it, failed, now);
    AbortReviewFacts(cfg, it, Enter(seen, CiPending, now), now);
    QuietKeeps(cfg, it, Step(failed, [CleanReview(it.id)] + [NotifyCiFailure(it.id, it.pr.number)]));
  }

  lemma AbortReviewFacts(cfg: Config, it: Item, aborted: Item, now: int)
    requires Alike(it, aborted) && ParkedOk(aborted) && !aborted.state.Merging?
    ensures Keeps(cfg, it, PlanRebaseConflictAction(cfg, aborted, now).After([CleanReview(it.id)]))
  {
    hide Count, PlanRebaseConflictAction;
    PlanRebaseFacts(cfg, aborted, now);
    FromAlike(cfg, it, aborted, PlanRebaseConflictAction(cfg, aborted, now));
    AfterKeeps(cfg, it, PlanRebaseConflictAction(cfg, aborted, now), [CleanReview(it.id)]);
  }

  /** The approve verdict is the one way an unvouched item becomes vouched. */
  predicate ApproveSeen(it: Item, snap: Snapshot) {
    it.state.Reviewing? && snap.reviewVerdict.Approve?
  }

  lemma HandleReviewingFacts(cfg: Config, it: Item, snap: Snapshot, now: int)
    requires it.state.Reviewing? && ParkedOk(it)
    ensures var from := if ApproveSeen(it, snap) then it.(review := it.review.(completed := true)) else it;
      Keeps(cfg, from, HandleReviewing(cfg, it, snap, now))
  {
    hide Count, PassAndEvaluate, HandleReviewRunning;
    match snap.reviewVerdict
    case Approve =>
      var from := it.(review := it.review.(completed := true));
      var approved := it.(review := it.review.(completed := true, lastReviewed := snap.headSha, lastApproved := snap.headSha));
      var posted := [CleanReview(it.id), PostReview(it.id, it.pr.number, Approve), SetCommitStatus(it.id, it.pr.number, Pass)];
      PassAndEvaluateFacts(cfg, approved, snap, posted, now);
      FromAlike(cfg, from, approved, PassAndEvaluate(cfg, approved, snap, posted, now));
    case RequestChanges => QuietKeeps(cfg, it, HandleReviewing(cfg, it, snap, now));
    case NoVerdict => HandleReviewRunningFacts(cfg, it, snap, now);
  }

  lemma FailCiFromReviewFacts(cfg: Config, it: Item, snap: Snapshot, before: seq<Action>, now: int)
    requires it.state.ReviewPending? && Quiet(before)
    ensures Keeps(cfg, it, FailCiFromReview(cfg, it, snap, before, now))
  {
    hide Count, PlanRebaseConflictAction, RespawnCiFixWorker;
    var counted := CountCiFailure(Enter(it, CiFailed, now));
    PlanRebaseFacts(cfg, counted, now);
    FromAlike(cfg, it, counted, PlanRebaseConflictAction(cfg, counted, now));
    AfterKeeps(cfg, it, PlanRebaseConflictAction(cfg, counted, now), before);
    RespawnCiFixFacts(cfg, counted, now);
    FromAlike(cfg, it, counted, RespawnCiFixWorker(counted, now));
    QuietKeeps(cfg, it, EmitCiFailureNotification(counted, now));
    AfterKeeps(cfg, it, EmitCiFailureNotification(counted, now), before);
  }

  lemma NudgeOrRecoverReviewFacts(cfg: Config, it: Item, snap: Snapshot, before: seq<Action>, now: int)
    requires it.state.ReviewPending? && Quiet(before)
    ensures Keeps(cfg, it, NudgeOrRecoverReview(cfg, it, snap, before, now))
  {
    hide Count, PlanRebaseConflictAction, PassAndEvaluate, InboxWaitStalled;
    PlanRebaseFacts(cfg, it, now);
    QuietKeeps(cfg, it, Step(it, []));
    var nudged := if snap.isMergeable.No? then PlanRebaseConflictAction(cfg, it, now) else Step(it, []);
    AfterKeeps(cfg, it, nudged, before);
    var forgotten := ForgetReview(nudged.item);
    PassAndEvaluateFacts(cfg, forgotten, snap, before + nudged.actions, now);
    FromAlike(cfg, it, forgotten, PassAndEvaluate(cfg, forgotten, snap, before + nudged.actions, now));
  }

  lemma AwaitFixFacts(cfg: Config, it: Item, snap: Snapshot, before: seq<Action>, now: int)
    requires it.state.ReviewPending? && Quiet(before)
    ensures Keeps(cfg, it, AwaitFix(it, snap, before, now))
  {
    hide Count, RespawnForFeedback, Quiet;
    var seen := if it.session.workspace.NoWorkspace? then it else CountLiveness(it, snap);
    var message := if it.feedback.message.NoMessage? then ReviewRequestedChanges else it.feedback.message;
    RespawnFacts(cfg, seen, message, now);
    FromAlike(cfg, it, seen, RespawnForFeedback(seen, message, now));
    QuietKeeps(cfg, it, Step(seen, before));
  }

  lemma HandleSettledReviewFacts(cfg: Config, it: Item, snap: Snapshot, before: seq<Action>, now: int)
    requires it.state.ReviewPending? && Quiet(before)
    ensures Keeps(cfg, it, HandleSettledReview(cfg, it, snap, before, now))
  {
    hide Count, Quiet, EvaluateMerge, RespawnForFeedback, FailCiFromReview, AwaitFix, RestartCi, PassAndEvaluate, NudgeOrRecoverReview;
    QuietKeeps(cfg, it, Step(it, before));
    EvaluateMergeFacts(cfg, it, snap, now);
    AfterKeeps(cfg, it, EvaluateMerge(cfg, it, snap, now), before);
    RespawnFacts(cfg, it, if it.feedback.message.NoMessage? then GitHubRequestedChanges else it.feedback.message, now);
    FailCiFromReviewFacts(cfg, it, snap, before, now);
    AwaitFixFacts(cfg, it, snap, before, now);
    RestartCiFacts(cfg, it, snap, before, now);
    PassAndEvaluateFacts(cfg, it, snap, before, now);
    NudgeOrRecoverReviewFacts(cfg, it, snap, before, now);
  }

  lemma HandleAnsweredReviewFacts(cfg: Config, it: Item, snap: Snapshot, before: seq<Action>, now: int)
    requires it.state.ReviewPending? && Quiet(before)
    ensures Keeps(cfg, it, HandleAnsweredReview(cfg, it, snap, before, now))
  {
    hide Count, Quiet, ContinuePendingFeedbackHandoff, ResolvePendingFeedbackBatch, HandleSettledReview;
    HandoffFacts(cfg, it, snap, now);
    ResolveFacts(cfg, it, snap, now);
    HandleSettledReviewFacts(cfg, it, snap, before, now);
  }

  lemma HandleReviewPendingFacts(cfg: Config, it: Item, snap: Snapshot, now: int)
    requires it.state.ReviewPending?
    ensures Keeps(cfg, it, HandleReviewPending(cfg, it, snap, now))
  {
    hide Count, PassAndEvaluate, TryHandleNoNewInfo, TryHandlePushback, HandleAnsweredReview, RestartCi;
    var status, signal, done := [SetCommitStatus(it.id, it.pr.number, Pass)], [ClearFeedbackDone(it.id)], FinishFeedback(it);
    PassAndEvaluateFacts(cfg, it, snap, status, now);
    NoNewInfoFacts(cfg, it, snap, now);
    PushbackFacts(cfg, it, snap, now);
    RestartCiFacts(cfg, done, snap, signal, now);
    PassAndEvaluateFacts(cfg, done, snap, signal, now);
    HandleAnsweredReviewFacts(cfg, done, snap, signal, now);
    FromAlike(cfg, it, done, HandleFeedbackDone(cfg, it, snap, now));
    HandleAnsweredReviewFacts(cfg, it, snap, [], now);
  }

  lemma HandleMergingFacts(cfg: Config, it: Item, snap: Snapshot, now: int)
    requires it.state.Merging? && ParkedOk(it)
    ensures Keeps(cfg, it, HandleMerging(cfg, it, snap, now))
  {
    hide Count, ContinuePendingFeedbackHandoff, ResolvePendingFeedbackBatch;
    HandoffFacts(cfg, it, snap, now);
    ResolveFacts(cfg, it, snap, now);
    QuietKeeps(cfg, it, Step(Enter(it, Stuck, now), []));
    QuietKeeps(cfg, it, Step(it, []));
    CountOne(cfg, it.id, Merge(it.id, it.pr.number, cfg.mergeStrategy.Bypass?));
  }
}
