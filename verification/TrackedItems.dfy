/**
 * The tracked item as an object whose fields every handler assigns (core/orchestrator.ts). Each
 * method does to the object what its specification in module Lifecycle does to the item record,
 * asks for the same actions and throws on the same edges.
 */
module TrackedItems {
  import opened OrchestratorTypes
  import opened OrchestratorGuards
  import L = Lifecycle

  /** What a handler returns: its actions, `null`, or the exception of `transition`. */
  datatype Reply = Acts(actions: seq<Action>) | NullReply | Threw(from: State, to: State) {
    predicate IsFailure() { Threw? }

    function PropagateFailure(): Reply
      requires Threw?
    {
      this
    }

    function Extract(): Reply
      requires !Threw?
    {
      this
    }

    /** `[...before, ...actions]`. */
    function After(before: seq<Action>): Reply {
      if Acts? then Acts(before + actions) else this
    }
  }

  /** What `transition` does: it succeeds, or throws. */
  datatype Outcome = Entered | Illegal(from: State, to: State) {
    predicate IsFailure() { Illegal? }

    function PropagateFailure(): Reply
      requires Illegal?
    {
      Threw(from, to)
    }
  }

  class TrackedItem {
    const id: Id
    var workItem: WorkItem
    var state: State
    var lastTransition: int
    var retryCount: nat
    var mergeFailCount: nat
    var session: Session
    var pr: PullRequest
    var ci: Ci
    var rebase: Rebase
    var review: Review
    var feedback: Feedback
    var repair: Repair

    ghost function View(): Item
      reads this
    {
      Item(id, workItem, state, lastTransition, retryCount, mergeFailCount, session, pr, ci, rebase, review, feedback, repair)
    }

    /** The object and the reply are what the step says. */
    ghost predicate Does(step: L.Step, reply: Reply)
      reads this
    {
      match step
      case Step(item, actions) => View() == item && reply == Acts(actions)
      case Declined => reply == NullReply
      case Throw(from, to) => reply == Threw(from, to)
    }

    ghost predicate Moves(move: L.Move, outcome: Outcome)
      reads this
    {
      match move
      case Moved(item) => View() == item && outcome == Entered
      case Illegal(from, to) => outcome == Illegal(from, to)
    }

    /** addItem. */
    constructor (w: WorkItem, now: int)
      ensures View() == NewItem(w, now)
    {
      id, workItem, state, lastTransition := w.id, w, Queued, now;
      retryCount, mergeFailCount := 0, 0;
      session := Session(NoWorkspace, NoWorkspace, false, Undefined, 0, Undefined, 0);
      pr := PullRequest(Absent, [], Absent, Undefined);
      ci := Ci(0, 0, false, Undefined, Undefined, Undefined, false);
      rebase := Rebase(false, Undefined, 0, 0, NoWorkspace);
      review := Review(false, 0, Absent, Absent, [], NoWorkspace);
      feedback := Feedback(false, NoMessage, false, NoBatch);
      repair := Repair(Absent, 0, NoWorkspace);
    }

    /** The resets `transition` performs, in the order of the source. */
    method EnterState(to: State, now: int)
      modifies this
      ensures View() == L.Enter(old(View()), to, now)
    {
      var from := state;
      state, lastTransition := to, now;
      rebase := rebase.(requested := false);
      session := session.(parked := false, timeoutDeadline := Undefined, timeoutExtensions := 0);
      if to.CiPending? && (from.Implementing? || from.Launching?) {
        ci := ci.(pendingSince := At(now));
      } else if !to.CiPending? {
        ci := ci.(pendingSince := Undefined);
      }
      if to.CiFailed? {
        review := review.(completed := false);
      }
      if to.CiPending? || to.CiPassed? {
        ci := ci.(notified := false, notifiedAt := Undefined, notifyWallAt := Undefined);
      }
    }

    method Transition(to: State, now: int) returns (outcome: Outcome)
      modifies this
      ensures Moves(L.Transition(old(View()), to, now), outcome)
      ensures outcome.Illegal? ==> View() == old(View())
    {
      if state == to {
        return Entered;
      }
      if !Legal(state, to) {
        return Illegal(state, to);
      }
      EnterState(to, now);
      outcome := Entered;
    }

    // ---- Shared helpers -------------------------------------------------------------------

    method CheckWorkerLiveness(snap: Snapshot) returns (liveness: L.Liveness)
      modifies `session
      ensures liveness == L.LivenessOf(old(View()), snap) && View() == L.CountLiveness(old(View()), snap)
    {
      match snap.workerAlive
      case Yes =>
        session := session.(notAliveCount := 0);
        liveness := L.Alive;
      case No =>
        session := session.(notAliveCount := session.notAliveCount + 1);
        liveness := if session.notAliveCount >= NOT_ALIVE_THRESHOLD then L.Dead else L.Debouncing;
      case NotAsked => liveness := L.UnknownLiveness;
    }

    method ResetRebaseRetryCooldown(progressAt: Time, now: int)
      modifies `rebase
      ensures View() == L.ResetRebaseRetryCooldown(old(View()), progressAt, now)
    {
      rebase := rebase.(requested := false, lastNudgeAt := OrTime(progressAt, At(now)), nudgeCount := 0);
    }

    method PlanRebaseConflictAction(cfg: Config, now: int) returns (reply: Reply)
      modifies `rebase
      ensures Does(L.PlanRebaseConflictAction(cfg, old(View()), now), reply) && !reply.NullReply?
    {
      var stale := IsRebaseStale(rebase.lastNudgeAt, now, cfg.rebaseRetryStaleMs);
      if rebase.requested && !rebase.lastNudgeAt.At? {
        rebase := rebase.(lastNudgeAt := At(now));
        return Acts([]);
      }
      if !rebase.requested {
        if !stale {
          return Acts([]);
        }
        rebase := rebase.(requested := true, lastNudgeAt := At(now), nudgeCount := 0);
        return Acts([DaemonRebase(id, false)]);
      }
      if !stale {
        return Acts([]);
      }
      var nudges := rebase.nudgeCount;
      rebase := rebase.(lastNudgeAt := At(now), nudgeCount := nudges + 1);
      reply := Acts([DaemonRebase(id, nudges >= 1)]);
    }

    method EmitCiFailureNotification(now: int) returns (reply: Reply)
      modifies `ci
      ensures Does(L.EmitCiFailureNotification(old(View()), now), reply) && !reply.NullReply?
    {
      ci := ci.(notified := true, notifiedAt := OrTime(pr.lastCommitTime, Null), notifyWallAt := At(now));
      reply := Acts([NotifyCiFailure(id, pr.number)]);
    }

    /** shouldDeferTimeout. */
    method ShouldDeferTimeout(cfg: Config, now: int) returns (defer: bool)
      modifies `session
      ensures defer == L.DefersTimeout(cfg, old(View()), now)
      ensures View() == if defer then L.OpenGraceWindow(cfg, old(View()), now) else old(View())
    {
      if cfg.gracePeriodMs <= 0 {
        return false;
      }
      if !session.timeoutDeadline.At? {
        session := session.(timeoutDeadline := At(now + cfg.gracePeriodMs), timeoutExtensions := 0);
        return true;
      }
      defer := now < session.timeoutDeadline.ms;
    }

    /** Hand the workspace to the retry action: stash the reference and reset liveness. */
    method StashWorkspace()
      modifies `session
      ensures session == L.StashWorkspace(old(session))
    {
      session := session.(pendingRetry := session.workspace, workspace := NoWorkspace, notAliveCount := 0, lastAliveAt := Undefined);
    }

    method StuckOrRetry(cfg: Config, now: int) returns (reply: Reply)
      modifies this
      ensures Does(L.StuckOrRetry(cfg, old(View()), now), reply) && !reply.NullReply?
    {
      hide L.Transition, L.StashWorkspace;
      if retryCount < cfg.maxRetries {
        retryCount := retryCount + 1;
        StashWorkspace();
        pr := pr.(lastCommitTime := Undefined);
        :- Transition(Ready, now);
        return Acts([Retry(id)]);
      }
      :- Transition(Stuck, now);
      reply := Acts([WorkspaceClose(id)]);
    }

    method RespawnCiFixWorker(now: int) returns (reply: Reply)
      modifies this
      ensures Does(L.RespawnCiFixWorker(old(View()), now), reply) && !reply.NullReply?
    {
      hide L.Transition, L.StashWorkspace;
      ci := ci.(needsFix := true, notifyWallAt := Undefined);
      StashWorkspace();
      :- Transition(Ready, now);
      reply := Acts([Retry(id)]);
    }

    method RespawnForFeedback(message: Message, now: int) returns (reply: Reply)
      modifies this
      ensures Does(L.RespawnForFeedback(old(View()), message, now), reply) && !reply.NullReply?
    {
      hide L.Transition, L.StashWorkspace;
      review := review.(completed := false);
      feedback := feedback.(needsResponse := true, message := message, armed := false);
      StashWorkspace();
      :- Transition(Ready, now);
      reply := Acts([Retry(id)]);
    }

    method IsRecoverableHeadlessStop(snap: Snapshot) returns (recoverable: bool)
      ensures recoverable == L.IsRecoverableHeadlessStop(View(), snap)
    {
      if session.workspace.NoWorkspace? || !session.workspace.headless || snap.workerAlive.Yes? {
        return false;
      }
      recoverable := snap.headlessPhase.Waiting? || snap.headlessPhase.Coding?;
    }

    method RecoverHeadlessWorker(now: int) returns (reply: Reply)
      modifies this
      ensures Does(L.RecoverHeadlessWorker(old(View()), now), reply) && !reply.NullReply?
    {
      hide L.Transition, L.StashWorkspace;
      StashWorkspace();
      pr := pr.(lastCommitTime := Undefined);
      :- Transition(Ready, now);
      reply := Acts([Retry(id)]);
    }

    /** The three statements every timeout branch of handleImplementing ends with. */
    method OnTimeout(cfg: Config, snap: Snapshot, now: int) returns (reply: Reply)
      modifies this
      ensures Does(L.OnTimeout(cfg, old(View()), snap, now), reply) && !reply.NullReply?
    {
      hide L.StuckOrRetry, L.RecoverHeadlessWorker, L.IsRecoverableHeadlessStop, L.DefersTimeout, L.OpenGraceWindow;
      var defer := ShouldDeferTimeout(cfg, now);
      if defer {
        return Acts([]);
      }
      var recoverable := IsRecoverableHeadlessStop(snap);
      if recoverable {
        reply := RecoverHeadlessWorker(now);
      } else {
        reply := StuckOrRetry(cfg, now);
      }
    }

    // ---- Human feedback -------------------------------------------------------------------

    /** The two loops that fill the map of comments by key. */
    static method MergeByKey(known: set<Comment>, humans: seq<Comment>) returns (byKey: set<Comment>)
      ensures byKey == known + set c | c in humans
      ensures known == {} ==> byKey == set c | c in humans
    {
      byKey := known;
      var i := 0;
      while i < |humans|
        invariant 0 <= i <= |humans| && byKey == known + set c | c in humans[..i]
      {
        assert humans[..i + 1] == humans[..i] + [humans[i]];
        byKey := byKey + {humans[i]};
        i := i + 1;
      }
      assert humans[..|humans|] == humans;
    }

    method IngestPendingFeedbackBatch(snap: Snapshot)
      modifies `feedback
      ensures View() == L.IngestPendingFeedbackBatch(old(View()), snap)
    {
      var humans := L.HumanComments(snap.newComments);
      if humans == [] {
        return;
      }
      var byKey := MergeByKey(if feedback.batch.Batch? then feedback.batch.comments else {}, humans);
      var deadline := L.LatestCreated(humans) + FEEDBACK_DEBOUNCE_MS;
      if feedback.batch.Batch? && feedback.batch.deadline > deadline {
        deadline := feedback.batch.deadline;
      }
      feedback := feedback.(batch := Batch(byKey, deadline));
    }

    method FeedbackBatchDeliveryMode(snap: Snapshot) returns (mode: L.DeliveryMode)
      modifies `session
      ensures mode == L.FeedbackBatchDeliveryMode(old(View()), snap) && View() == L.SampleForDelivery(old(View()), snap)
    {
      if session.parked {
        return L.Relaunch;
      }
      if !state.ReviewPending? {
        return L.Deliver;
      }
      if session.workspace.NoWorkspace? {
        return L.Relaunch;
      }
      var liveness := CheckWorkerLiveness(snap);
      if liveness.Dead? {
        return L.Relaunch;
      }
      mode := if liveness.Alive? then L.Deliver else L.Wait;
    }

    /** The `deliver` branch of resolvePendingFeedbackBatch. */
    method DeliverBatch(snap: Snapshot, now: int) returns (reply: Reply)
      modifies this
      ensures Does(L.DeliverBatch(old(View()), snap, now), reply) && !reply.NullReply?
    {
      hide L.Transition;
      var sent := [SendMessage(id, feedback.message)];
      if review.completed {
        review := review.(completed := false);
        if state.CiPassed? || state.Merging? {
          :- Transition(ReviewPending, now);
        }
      }
      if session.workspace.Workspace? {
        var liveness := CheckWorkerLiveness(snap);
        if liveness.Alive? {
          feedback := feedback.(armed := true);
        }
      }
      reply := Acts(sent);
    }

    method ResolvePendingFeedbackBatch(snap: Snapshot, now: int) returns (reply: Reply)
      modifies this
      ensures Does(L.ResolvePendingFeedbackBatch(old(View()), snap, now), reply)
      ensures reply.NullReply? ==> View() == old(View())
    {
      hide L.RespawnForFeedback, L.DeliverBatch, L.FeedbackBatchDeliveryMode, L.SampleForDelivery;
      if feedback.batch.NoBatch? || feedback.batch.comments == {} {
        return NullReply;
      }
      if now < feedback.batch.deadline {
        return Acts([]);
      }
      var message := BatchFeedback(feedback.batch.comments);
      SampleKeepsFeedback(View(), snap);
      var mode := FeedbackBatchDeliveryMode(snap);
      if mode.Wait? {
        return Acts([]);
      }
      review := review.(lastReviewed := OrRef(snap.headSha, review.lastReviewed));
      feedback := Feedback(true, message, false, NoBatch);
      if mode.Relaunch? {
        reply := RespawnForFeedback(message, now);
      } else {
        reply := DeliverBatch(snap, now);
      }
    }

    method ContinuePendingFeedbackHandoff(snap: Snapshot, now: int) returns (reply: Reply)
      modifies this
      ensures Does(L.ContinuePendingFeedbackHandoff(old(View()), snap, now), reply)
      ensures reply.NullReply? ==> View() == old(View())
    {
      hide L.RespawnForFeedback, L.Enter;
      var message := feedback.message;
      if !feedback.needsResponse || message.NoMessage? {
        return NullReply;
      }
      review := review.(lastReviewed := OrRef(snap.headSha, review.lastReviewed));
      if state.CiPassed? || state.Merging? {
        review := review.(completed := false);
        :- Transition(ReviewPending, now);
      }
      if session.parked || session.workspace.NoWorkspace? {
        reply := RespawnForFeedback(message, now);
        return;
      }
      var liveness := CheckWorkerLiveness(snap);
      if liveness.Dead? {
        reply := RespawnForFeedback(message, now);
      } else if liveness.Alive? {
        feedback := feedback.(armed := true);
        reply := Acts([SendMessage(id, message)]);
      } else {
        reply := Acts([]);
      }
    }

    method TryHandleNoNewInfo(snap: Snapshot, now: int) returns (reply: Reply)
      modifies this
      ensures Does(L.TryHandleNoNewInfo(old(View()), snap, now), reply)
      ensures reply.NullReply? ==> View() == old(View())
    {
      hide L.Transition;
      if !snap.noNewInfo {
        return NullReply;
      }
      if review.lastReviewed.Absent? || snap.headSha != review.lastReviewed {
        return NullReply;
      }
      feedback := feedback.(batch := NoBatch, message := NoMessage, needsResponse := false);
      pr := pr.(number := OrRef(snap.prNumber, pr.number));
      if review.lastApproved.Ref? && snap.headSha == review.lastApproved {
        review := review.(completed := true);
      }
      var actions := [ClearNoNewInfo(id)];
      if session.workspace.Workspace? && !session.parked {
        session := session.(parked := true);
        actions := actions + [WorkspaceClose(id)];
      }
      :- Transition(ReviewPending, now);
      reply := Acts(actions);
    }

    // ---- Merge evaluation -----------------------------------------------------------------

    method LaunchReviewRound(cfg: Config, snap: Snapshot, now: int) returns (reply: Reply)
      modifies this
      ensures Does(L.LaunchReviewRound(cfg, old(View()), snap, now), reply) && !reply.NullReply?
    {
      hide L.Enter;
      if state.Reviewing? || (review.lastReviewed.Ref? && snap.headSha == review.lastReviewed) {
        return Acts([]);
      }
      var currentRound := review.round + 1;
      if currentRound > cfg.maxReviewRounds {
        :- Transition(Stuck, now);
        return Acts([]);
      }
      review := review.(round := currentRound);
      var number := pr.number;
      :- Transition(Reviewing, now);
      reply := Acts([LaunchReview(id, number), SetCommitStatus(id, number, InProgress)]);
    }

    method HoldOrMerge(cfg: Config, snap: Snapshot, now: int) returns (reply: Reply)
      modifies this
      ensures Does(L.HoldOrMerge(cfg, old(View()), snap, now), reply) && !reply.NullReply?
    {
      hide L.Enter;
      if workItem.requiresManualReview || snap.reviewDecision.ChangesRequested? || cfg.mergeStrategy.Manual? {
        :- Transition(ReviewPending, now);
        if review.completed && !snap.reviewDecision.ChangesRequested? && !session.parked {
          session := session.(parked := true);
          return Acts([WorkspaceClose(id)]);
        }
        return Acts([]);
      }
      var number := pr.number;
      :- Transition(Merging, now);
      reply := Acts([Merge(id, number, cfg.mergeStrategy.Bypass?)]);
    }

    method EvaluateMerge(cfg: Config, snap: Snapshot, now: int) returns (reply: Reply)
      modifies this
      ensures Does(L.EvaluateMerge(cfg, old(View()), snap, now), reply) && !reply.NullReply?
    {
      hide L.TryHandleNoNewInfo, L.ContinuePendingFeedbackHandoff, L.ResolvePendingFeedbackBatch, L.LaunchReviewRound, L.HoldOrMerge;
      reply := TryHandleNoNewInfo(snap, now);
      if !reply.NullReply? {
        return;
      }
      reply := ContinuePendingFeedbackHandoff(snap, now);
      if !reply.NullReply? {
        return;
      }
      reply := ResolvePendingFeedbackBatch(snap, now);
      if !reply.NullReply? {
        return;
      }
      if cfg.skipReview && !review.completed {
        review := review.(completed := true);
      }
      if !review.completed {
        reply := LaunchReviewRound(cfg, snap, now);
      } else {
        reply := HoldOrMerge(cfg, snap, now);
      }
    }

    // ---- State handlers -------------------------------------------------------------------

    method CountCiFailure()
      modifies `ci
      ensures View() == L.CountCiFailure(old(View()))
    {
      ci := ci.(failCount := ci.failCount + 1, failCountTotal := ci.failCountTotal + 1);
    }

    /** The ci-failed branch that handleCiPending and handleCiPassed share. */
    method FailCi(cfg: Config, snap: Snapshot, now: int) returns (reply: Reply)
      modifies this
      ensures Does(L.FailCi(cfg, old(View()), snap, now), reply) && !reply.NullReply?
    {
      hide L.Transition, L.PlanRebaseConflictAction, L.EmitCiFailureNotification, L.CountCiFailure;
      :- Transition(CiFailed, now);
      CountCiFailure();
      if snap.isMergeable.No? {
        reply := PlanRebaseConflictAction(cfg, now);
      } else {
        reply := EmitCiFailureNotification(now);
      }
    }

    /** The statements that regress an item to ci-pending because CI restarted. */
    method RestartCi(snap: Snapshot, before: seq<Action>, now: int) returns (reply: Reply)
      modifies this
      ensures Does(L.RestartCi(old(View()), snap, before, now), reply) && !reply.NullReply?
    {
      hide L.Transition, L.ResetRebaseRetryCooldown;
      :- Transition(CiPending, now);
      ResetRebaseRetryCooldown(OrTime(snap.eventTime, snap.lastCommitTime), now);
      reply := Acts(before);
    }

    /** The statements that enter ci-passed and evaluate the merge in the same poll. */
    method PassAndEvaluate(cfg: Config, snap: Snapshot, before: seq<Action>, now: int) returns (reply: Reply)
      modifies this
      ensures Does(L.PassAndEvaluate(cfg, old(View()), snap, before, now), reply) && !reply.NullReply?
    {
      hide L.Transition, L.EvaluateMerge;
      :- Transition(CiPassed, now);
      reply :- EvaluateMerge(cfg, snap, now);
      reply := reply.After(before);
    }

    method HandleCiPending(cfg: Config, snap: Snapshot, now: int) returns (reply: Reply)
      modifies this
      ensures Does(L.HandleCiPending(cfg, old(View()), snap, now), reply) && !reply.NullReply?
    {
      hide L.FailCi, L.PlanRebaseConflictAction, L.PassAndEvaluate, L.ResolvePendingFeedbackBatch, L.EvaluateMerge;
      if snap.ciStatus.Fail? && ci.pendingSince.At? {
        if !IsCiFailTrustworthy(ci.pendingSince, now, cfg.ciPendingFailGraceMs) {
          return Acts([]);
        }
      }
      if snap.ciStatus.Fail? {
        reply := FailCi(cfg, snap, now);
        return;
      }
      if snap.isMergeable.No? {
        reply := PlanRebaseConflictAction(cfg, now);
        return;
      }
      if snap.ciStatus.Pass? {
        reply := PassAndEvaluate(cfg, snap, [], now);
        return;
      }
      reply := ResolvePendingFeedbackBatch(snap, now);
      if reply.NullReply? {
        reply := Acts([]);
      }
    }

    method HandleCiPassed(cfg: Config, snap: Snapshot, now: int) returns (reply: Reply)
      modifies this
      ensures Does(L.HandleCiPassed(cfg, old(View()), snap, now), reply) && !reply.NullReply?
    {
      hide L.FailCi, L.PlanRebaseConflictAction, L.RestartCi, L.EvaluateMerge, L.Enter;
      if snap.ciStatus.Fail? {
        reply := FailCi(cfg, snap, now);
      } else if snap.ciStatus.InProgress? {
        reply := RestartCi(snap, [], now);
      } else if snap.isMergeable.No? {
        :- Transition(CiPending, now);
        reply := PlanRebaseConflictAction(cfg, now);
      } else {
        reply := EvaluateMerge(cfg, snap, now);
      }
    }

    /** handleCiFailed from the notification on. */
    method HandleCiStillFailing(snap: Snapshot, now: int) returns (reply: Reply)
      modifies this
      ensures Does(L.HandleCiStillFailing(old(View()), snap, now), reply) && !reply.NullReply?
    {
      hide L.RespawnCiFixWorker, L.ResolvePendingFeedbackBatch;
      var before := ci;
      if ci.notified && ShouldRenotifyCiFailure(pr.lastCommitTime, OrTime(ci.notifiedAt, Null)) {
        ci := ci.(notified := false);
      }
      var actions: seq<Action> := [];
      if !ci.notified {
        var notified := EmitCiFailureNotification(now);
        actions := notified.actions;
      }
      var liveness := CheckWorkerLiveness(snap);
      if liveness.Dead? {
        reply := RespawnCiFixWorker(now);
        return;
      }
      if before.notified && before.notifyWallAt.At? {
        if IsCiFixAckTimedOut(before.notifyWallAt.ms, snap.heartbeatAt, now, CI_FIX_ACK_MS) {
          reply := RespawnCiFixWorker(now);
          return;
        }
      }
      reply :- ResolvePendingFeedbackBatch(snap, now);
      reply := if reply.NullReply? then Acts(actions) else reply.After(actions);
    }

    method HandleCiFailed(cfg: Config, snap: Snapshot, now: int) returns (reply: Reply)
      modifies this
      ensures Does(L.HandleCiFailed(cfg, old(View()), snap, now), reply) && !reply.NullReply?
    {
      hide L.Enter, L.HandleCiPassed, L.RestartCi, L.PlanRebaseConflictAction, L.HandleCiStillFailing;
      if ci.failCount > cfg.maxCiRetries {
        :- Transition(Stuck, now);
        if snap.workerAlive.Yes? {
          session := session.(parked := true);
          return Acts([]);
        }
        return Acts([WorkspaceClose(id)]);
      }
      if snap.ciStatus.Pass? {
        :- Transition(CiPassed, now);
        reply := HandleCiPassed(cfg, snap, now);
        return;
      }
      if snap.ciStatus.InProgress? {
        reply := RestartCi(snap, [], now);
        return;
      }
      if snap.isMergeable.No? {
        reply := PlanRebaseConflictAction(cfg, now);
        return;
      }
      reply := HandleCiStillFailing(snap, now);
    }

    /** The statements that enter ci-pending from a pull request or a signal and process CI in the same poll. */
    method ResumeCi(cfg: Config, snap: Snapshot, signal: seq<Action>, now: int) returns (reply: Reply)
      modifies this
      ensures Does(L.ResumeCi(cfg, old(View()), snap, signal, now), reply) && !reply.NullReply?
    {
      hide L.Transition, L.HandleCiPending;
      var sync := if pr.baseBranch.Ref? then [SyncStackComments(id)] else [];
      :- Transition(CiPending, now);
      reply :- HandleCiPending(cfg, snap, now);
      reply := reply.After(signal + sync);
    }

    method TryHandlePushback(cfg: Config, snap: Snapshot, now: int) returns (reply: Reply)
      modifies this
      ensures Does(L.TryHandlePushback(cfg, old(View()), snap, now), reply)
      ensures reply.NullReply? ==> View() == old(View())
    {
      hide L.ResumeCi;
      if !snap.pushback.Ref? {
        return NullReply;
      }
      if review.lastReviewed.Absent? || snap.headSha != review.lastReviewed {
        return NullReply;
      }
      review := review.(pushbacks := review.pushbacks + [snap.pushback.n]);
      review := review.(lastReviewed := Absent, completed := false);
      feedback := feedback.(needsResponse := false, message := NoMessage);
      pr := pr.(number := OrRef(snap.prNumber, pr.number));
      reply := ResumeCi(cfg, snap, [ClearPushback(id)], now);
    }

    /** handleImplementing when an open pull request is visible; `null` when the item waits for a push. */
    method HandleOpenPr(cfg: Config, snap: Snapshot, now: int) returns (reply: Reply)
      modifies this
      ensures Does(L.HandleOpenPr(cfg, old(View()), snap, now), reply)
      ensures reply.NullReply? ==> View() == old(View())
    {
      hide L.ResumeCi, L.TryHandleNoNewInfo, L.TryHandlePushback;
      if review.lastReviewed.Ref? && snap.headSha == review.lastReviewed {
        reply := TryHandleNoNewInfo(snap, now);
        if !reply.NullReply? {
          return;
        }
        reply := TryHandlePushback(cfg, snap, now);
        if !reply.NullReply? {
          return;
        }
        if snap.feedbackDone {
          review := review.(lastReviewed := Absent);
          feedback := feedback.(needsResponse := false, message := NoMessage);
          pr := pr.(number := snap.prNumber);
          reply := ResumeCi(cfg, snap, [ClearFeedbackDone(id)], now);
        }
      } else {
        pr := pr.(number := snap.prNumber);
        reply := ResumeCi(cfg, snap, [], now);
      }
    }

    /** The liveness bookkeeping of handleImplementing. */
    method MarkWorking(snap: Snapshot, now: int) returns (dead: bool)
      modifies `session
      ensures View() == L.MarkWorking(old(View()), snap, now)
      ensures dead == (snap.prNumber.Absent? && L.LivenessOf(old(View()), snap).Dead?)
    {
      dead := false;
      if snap.prNumber.Absent? {
        var liveness := CheckWorkerLiveness(snap);
        dead := liveness.Dead?;
        if liveness.Alive? {
          session := session.(lastAliveAt := At(now));
        }
      } else if snap.workerAlive.Yes? {
        session := session.(notAliveCount := 0, lastAliveAt := At(now));
      }
    }

    /** handleImplementing from the liveness check on. */
    method HandleWorking(cfg: Config, snap: Snapshot, now: int) returns (reply: Reply)
      modifies this
      ensures Does(L.HandleWorking(cfg, old(View()), snap, now), reply) && !reply.NullReply?
    {
      hide L.StuckOrRetry, L.RecoverHeadlessWorker, L.IsRecoverableHeadlessStop, L.OnTimeout, L.RespawnForFeedback,
           L.InboxWaitStalled, L.MarkWorking;
      ghost var entry := View();
      MarkKeeps(entry, snap, now);
      var aliveBefore := session.lastAliveAt;
      var dead := MarkWorking(snap, now);
      if dead {
        var recoverable := IsRecoverableHeadlessStop(snap);
        if recoverable {
          reply := RecoverHeadlessWorker(now);
        } else {
          reply := StuckOrRetry(cfg, now);
        }
        return;
      }
      if IsHeartbeatActive(snap.heartbeatAt, now, HEARTBEAT_MS) {
        return Acts([]);
      }
      var commit := OrTime(snap.lastCommitTime, pr.lastCommitTime);
      var lastPositive := OrTime(OrTime(aliveBefore, session.lastAliveAt), At(lastTransition));
      var timedOut :=
        if commit.At? then TimedOut(commit.ms, now, cfg.activityTimeoutMs)
        else if snap.workerAlive.Yes? then TimedOut(lastTransition, now, cfg.activityTimeoutMs)
        else TimedOut(lastPositive.ms, now, cfg.launchTimeoutMs);
      assert timedOut == L.WorkTimedOut(cfg, entry, View(), snap, now);
      if timedOut {
        reply := OnTimeout(cfg, snap, now);
        return;
      }
      if feedback.needsResponse && !feedback.message.NoMessage? && snap.inboxWaitingSince.At? {
        var stalled := InboxWaitStalled(cfg, snap, now);
        if stalled {
          reply := RespawnForFeedback(feedback.message, now);
          return;
        }
      }
      reply := Acts([]);
    }

    method InboxWaitStalled(cfg: Config, snap: Snapshot, now: int) returns (stalled: bool)
      ensures stalled == L.InboxWaitStalled(cfg, View(), snap, now)
    {
      if cfg.inboxWaitExpireMs <= 0 {
        return false;
      }
      var latest := lastTransition;
      if snap.inboxWaitingSince.At? && snap.inboxWaitingSince.ms > latest {
        latest := snap.inboxWaitingSince.ms;
      }
      var commit := OrTime(snap.lastCommitTime, pr.lastCommitTime);
      if commit.At? && commit.ms > latest {
        latest := commit.ms;
      }
      stalled := now - latest > cfg.inboxWaitExpireMs;
    }

    method HandleImplementing(cfg: Config, snap: Snapshot, now: int) returns (reply: Reply)
      modifies this
      ensures Does(L.HandleImplementing(cfg, old(View()), snap, now), reply) && !reply.NullReply?
    {
      hide L.HandleOpenPr, L.HandleWorking;
      if snap.prNumber.Ref? && snap.prState.Open? {
        reply := HandleOpenPr(cfg, snap, now);
        if !reply.NullReply? {
          return;
        }
        pr := pr.(number := snap.prNumber);
      }
      reply := HandleWorking(cfg, snap, now);
    }

    method HandleLaunching(cfg: Config, snap: Snapshot, now: int) returns (reply: Reply)
      modifies this
      ensures Does(L.HandleLaunching(cfg, old(View()), snap, now), reply) && !reply.NullReply?
    {
      hide L.StuckOrRetry, L.Transition, L.DefersTimeout, L.OpenGraceWindow;
      var liveness := CheckWorkerLiveness(snap);
      match liveness
      case Alive =>
        :- Transition(Implementing, now);
        reply := Acts([]);
      case Dead => reply := StuckOrRetry(cfg, now);
      case UnknownLiveness =>
        if TimedOut(lastTransition, now, LAUNCHING_MS) {
          var defer := ShouldDeferTimeout(cfg, now);
          if defer {
            reply := Acts([]);
          } else {
            reply := StuckOrRetry(cfg, now);
          }
        } else {
          reply := Acts([]);
        }
      case Debouncing => reply := Acts([]);
    }

    method HandleRebasing(snap: Snapshot, now: int) returns (reply: Reply)
      modifies this
      ensures Does(L.HandleRebasing(old(View()), snap, now), reply) && !reply.NullReply?
    {
      hide L.RestartCi, L.Transition;
      if IsHeartbeatActive(snap.heartbeatAt, now, HEARTBEAT_MS) {
        return Acts([]);
      }
      var isFreshCi := IsEventFresherThan(snap.eventTime, lastTransition);
      if isFreshCi && (snap.ciStatus.InProgress? || snap.ciStatus.Pass? || snap.ciStatus.Fail?) {
        reply := RestartCi(snap, [CleanRebaser(id)], now);
        return;
      }
      if rebase.workspace.Workspace? {
        var liveness := CheckWorkerLiveness(snap);
        if liveness.Dead? {
          :- Transition(Stuck, now);
          return Acts([CleanRebaser(id)]);
        }
      }
      reply := Acts([]);
    }

    /** handleReviewing without a verdict. */
    method HandleReviewRunning(cfg: Config, snap: Snapshot, now: int) returns (reply: Reply)
      modifies this
      ensures Does(L.HandleReviewRunning(cfg, old(View()), snap, now), reply) && !reply.NullReply?
    {
      hide L.PassAndEvaluate, L.PlanRebaseConflictAction, L.Transition, L.CountCiFailure;
      var clean, number := [CleanReview(id)], pr.number;
      if review.completed && cfg.skipReview {
        reply := PassAndEvaluate(cfg, snap, clean + [SetCommitStatus(id, number, Pass)], now);
        return;
      }
      if review.workspace.Workspace? {
        var liveness := CheckWorkerLiveness(snap);
        if liveness.Dead? {
          reply := PassAndEvaluate(cfg, snap, clean + [SetCommitStatus(id, number, Fail)], now);
          return;
        }
      }
      if snap.ciStatus.Fail? {
        :- Transition(CiFailed, now);
        CountCiFailure();
        if snap.isMergeable.No? {
          reply := PlanRebaseConflictAction(cfg, now);
          reply := reply.After(clean);
        } else {
          reply := Acts(clean + [NotifyCiFailure(id, number)]);
        }
        return;
      }
      if snap.isMergeable.No? {
        :- Transition(CiPending, now);
        reply := PlanRebaseConflictAction(cfg, now);
        reply := reply.After(clean);
        return;
      }
      reply := Acts([]);
    }

    method HandleReviewing(cfg: Config, snap: Snapshot, now: int) returns (reply: Reply)
      modifies this
      ensures Does(L.HandleReviewing(cfg, old(View()), snap, now), reply) && !reply.NullReply?
    {
      hide L.PassAndEvaluate, L.HandleReviewRunning, L.Enter;
      var number := pr.number;
      match snap.reviewVerdict
      case Approve =>
        review := review.(completed := true, lastReviewed := snap.headSha, lastApproved := snap.headSha);
        reply := PassAndEvaluate(cfg, snap, [CleanReview(id), PostReview(id, number, Approve), SetCommitStatus(id, number, Pass)], now);
      case RequestChanges =>
        var message := ReviewFeedback(review.round);
        review := review.(lastReviewed := snap.headSha);
        :- Transition(ReviewPending, now);
        feedback := feedback.(message := message);
        reply := Acts([CleanReview(id), PostReview(id, number, RequestChanges), SetCommitStatus(id, number, Fail), NotifyReview(id, message)]);
      case NoVerdict => reply := HandleReviewRunning(cfg, snap, now);
    }

    /** The ci-failed branch of handleReviewPending. */
    method FailCiFromReview(cfg: Config, snap: Snapshot, before: seq<Action>, now: int) returns (reply: Reply)
      modifies this
      ensures Does(L.FailCiFromReview(cfg, old(View()), snap, before, now), reply) && !reply.NullReply?
    {
      hide L.Transition, L.PlanRebaseConflictAction, L.RespawnCiFixWorker, L.EmitCiFailureNotification, L.CountCiFailure;
      var wasParked := session.parked;
      :- Transition(CiFailed, now);
      CountCiFailure();
      if snap.isMergeable.No? {
        reply := PlanRebaseConflictAction(cfg, now);
        reply := reply.After(before);
        return;
      }
      if wasParked {
        reply := RespawnCiFixWorker(now);
        return;
      }
      reply := EmitCiFailureNotification(now);
      reply := reply.After(before);
    }

    /** The conflict nudge and the stalled-reviewer recovery of handleReviewPending. */
    method NudgeOrRecoverReview(cfg: Config, snap: Snapshot, before: seq<Action>, now: int) returns (reply: Reply)
      modifies this
      ensures Does(L.NudgeOrRecoverReview(cfg, old(View()), snap, before, now), reply) && !reply.NullReply?
    {
      hide L.PassAndEvaluate, L.InboxWaitStalled, L.PlanRebaseConflictAction;
      PlanKeeps(cfg, View(), now);
      StalledByTimes(cfg, View(), snap, now);
      var actions := before;
      if snap.isMergeable.No? {
        var nudge := PlanRebaseConflictAction(cfg, now);
        actions := actions + nudge.actions;
      }
      if snap.hasReviewerComment.No? {
        var stalled := InboxWaitStalled(cfg, snap, now);
        if stalled && review.round < cfg.maxReviewRounds {
          review := review.(completed := false, lastReviewed := Absent);
          session := session.(parked := false);
          reply := PassAndEvaluate(cfg, snap, actions, now);
          return;
        }
      }
      assert before + [] == before;
      reply := Acts(actions);
    }

    /** Respawn the implementer when nobody is working on the review feedback. */
    method AwaitFix(snap: Snapshot, before: seq<Action>, now: int) returns (reply: Reply)
      modifies this
      ensures Does(L.AwaitFix(old(View()), snap, before, now), reply) && !reply.NullReply?
    {
      hide L.RespawnForFeedback;
      var dead := session.workspace.NoWorkspace?;
      if !dead {
        var liveness := CheckWorkerLiveness(snap);
        dead := liveness.Dead?;
      }
      if dead {
        reply := RespawnForFeedback(if feedback.message.NoMessage? then ReviewRequestedChanges else feedback.message, now);
      } else {
        reply := Acts(before);
      }
    }

    /** handleReviewPending once no signal, handoff or batch applies. */
    method HandleSettledReview(cfg: Config, snap: Snapshot, before: seq<Action>, now: int) returns (reply: Reply)
      modifies this
      ensures Does(L.HandleSettledReview(cfg, old(View()), snap, before, now), reply) && !reply.NullReply?
    {
      hide L.EvaluateMerge, L.RespawnForFeedback, L.FailCiFromReview, L.AwaitFix, L.RestartCi, L.PassAndEvaluate, L.NudgeOrRecoverReview;
      var canAutoMerge := review.completed && snap.ciStatus.Pass? && (cfg.mergeStrategy.Auto? || cfg.mergeStrategy.Bypass?);
      if (snap.reviewDecision.Approved? && snap.ciStatus.Pass?) || canAutoMerge {
        if session.workspace.Workspace? {
          return Acts(before);
        }
        reply :- EvaluateMerge(cfg, snap, now);
        reply := reply.After(before);
        return;
      }
      if session.parked && snap.reviewDecision.ChangesRequested? {
        reply := RespawnForFeedback(if feedback.message.NoMessage? then GitHubRequestedChanges else feedback.message, now);
        return;
      }
      if snap.ciStatus.Fail? {
        reply := FailCiFromReview(cfg, snap, before, now);
        return;
      }
      if !review.completed {
        if review.lastReviewed.Ref? && snap.headSha == review.lastReviewed {
          reply := AwaitFix(snap, before, now);
          return;
        }
        if snap.ciStatus.InProgress? {
          reply := RestartCi(snap, before, now);
          return;
        }
        if snap.ciStatus.Pass? {
          reply := PassAndEvaluate(cfg, snap, before, now);
          return;
        }
      }
      reply := NudgeOrRecoverReview(cfg, snap, before, now);
    }

    /** handleReviewPending from the feedback handoff on. */
    method HandleAnsweredReview(cfg: Config, snap: Snapshot, before: seq<Action>, now: int) returns (reply: Reply)
      modifies this
      ensures Does(L.HandleAnsweredReview(cfg, old(View()), snap, before, now), reply) && !reply.NullReply?
    {
      hide L.ContinuePendingFeedbackHandoff, L.ResolvePendingFeedbackBatch, L.HandleSettledReview;
      reply := ContinuePendingFeedbackHandoff(snap, now);
      if !reply.NullReply? {
        return;
      }
      reply := ResolvePendingFeedbackBatch(snap, now);
      if !reply.NullReply? {
        return;
      }
      reply := HandleSettledReview(cfg, snap, before, now);
    }

    method HandleReviewPending(cfg: Config, snap: Snapshot, now: int) returns (reply: Reply)
      modifies this
      ensures Does(L.HandleReviewPending(cfg, old(View()), snap, now), reply) && !reply.NullReply?
    {
      hide L.PassAndEvaluate, L.TryHandleNoNewInfo, L.TryHandlePushback, L.HandleAnsweredReview, L.RestartCi;
      if review.completed && cfg.skipReview {
        reply := PassAndEvaluate(cfg, snap, [SetCommitStatus(id, pr.number, Pass)], now);
        return;
      }
      reply := TryHandleNoNewInfo(snap, now);
      if !reply.NullReply? {
        return;
      }
      reply := TryHandlePushback(cfg, snap, now);
      if !reply.NullReply? {
        return;
      }
      var actions: seq<Action> := [];
      if snap.feedbackDone && review.lastReviewed.Ref? && snap.headSha == review.lastReviewed {
        review := review.(lastReviewed := Absent);
        feedback := feedback.(needsResponse := false, message := NoMessage);
        actions := [ClearFeedbackDone(id)];
        if snap.ciStatus.InProgress? {
          reply := RestartCi(snap, actions, now);
          return;
        }
        if snap.ciStatus.Pass? {
          reply := PassAndEvaluate(cfg, snap, actions, now);
          return;
        }
      }
      reply := HandleAnsweredReview(cfg, snap, actions, now);
    }

    method HandleMerging(cfg: Config, snap: Snapshot, now: int) returns (reply: Reply)
      modifies this
      ensures Does(L.HandleMerging(cfg, old(View()), snap, now), reply) && !reply.NullReply?
    {
      hide L.ContinuePendingFeedbackHandoff, L.ResolvePendingFeedbackBatch, L.Transition;
      reply := ContinuePendingFeedbackHandoff(snap, now);
      if !reply.NullReply? {
        return;
      }
      reply := ResolvePendingFeedbackBatch(snap, now);
      if !reply.NullReply? {
        return;
      }
      if snap.prState.Closed? {
        :- Transition(Stuck, now);
        return Acts([]);
      }
      if snap.prState.Open? && snap.ciStatus.Pass? {
        return Acts([Merge(id, pr.number, cfg.mergeStrategy.Bypass?)]);
      }
      reply := Acts([]);
    }

    // ---- After the merge ------------------------------------------------------------------

    method FailForward(actions: seq<Action>, now: int) returns (reply: Reply)
      modifies this
      ensures Does(L.FailForward(old(View()), actions, now), reply) && !reply.NullReply?
    {
      hide L.Transition;
      repair := repair.(failCount := repair.failCount + 1);
      :- Transition(FixForwardFailed, now);
      reply := Acts(actions);
    }

    method Finish(actions: seq<Action>, now: int) returns (reply: Reply)
      modifies this
      ensures Does(L.Finish(old(View()), actions, now), reply) && !reply.NullReply?
    {
      hide L.Transition;
      :- Transition(Done, now);
      reply := Acts(actions);
    }

    method HandleMerged(cfg: Config, snap: Snapshot, now: int) returns (reply: Reply)
      modifies this
      ensures Does(L.HandleMerged(cfg, old(View()), snap, now), reply) && !reply.NullReply?
    {
      hide L.Transition, L.Finish, L.FailForward;
      var close := if session.workspace.Workspace? then [WorkspaceClose(id)] else [];
      if !cfg.fixForward {
        reply := Finish(close, now);
      } else if snap.mergeCommitCi.Pass? {
        reply := Finish(close, now);
      } else if snap.mergeCommitCi.Fail? {
        reply := FailForward(close, now);
      } else if repair.mergeCommit.Ref? {
        :- Transition(ForwardFixPending, now);
        reply := Acts(close);
      } else {
        reply := Acts(close);
      }
    }

    method HandleForwardFixPending(snap: Snapshot, now: int) returns (reply: Reply)
      modifies this
      ensures Does(L.HandleForwardFixPending(old(View()), snap, now), reply) && !reply.NullReply?
    {
      hide L.Finish, L.FailForward;
      match snap.mergeCommitCi
      case Pass => reply := Finish([], now);
      case Fail => reply := FailForward([], now);
      case InProgress =>
        var grace := if snap.hasPushWorkflows.No? then MERGE_CI_NO_PUSH_MS else MERGE_CI_MS;
        if TimedOut(lastTransition, now, grace) {
          reply := Finish([], now);
        } else {
          reply := Acts([]);
        }
      case NoStatus => reply := Acts([]);
      case Unknown => reply := Acts([]);
    }

    method HandleFixForwardFailed(cfg: Config, snap: Snapshot, now: int) returns (reply: Reply)
      modifies this
      ensures Does(L.HandleFixForwardFailed(cfg, old(View()), snap, now), reply) && !reply.NullReply?
    {
      hide L.Transition, L.Finish;
      if repair.failCount >= cfg.maxFixForwardRetries {
        :- Transition(Stuck, now);
        return Acts([]);
      }
      if snap.mergeCommitCi.Pass? {
        reply := Finish([], now);
        return;
      }
      if repair.mergeCommit.Ref? {
        :- Transition(FixingForward, now);
        return Acts([LaunchForwardFixer(id)]);
      }
      reply := Acts([]);
    }

    /** adoptTrackedPrNumber and the resets around it. */
    method AdoptRepairPr(number: nat)
      modifies this
      ensures View() == L.AdoptRepairPr(old(View()), number)
    {
      if pr.number.Ref? && pr.number.n != number && pr.number.n !in pr.prior {
        pr := pr.(prior := pr.prior + [pr.number.n]);
      }
      pr := pr.(number := Ref(number));
      repair := repair.(mergeCommit := Absent);
      review := review.(completed := false, round := 0);
      ci := ci.(failCount := 0, notified := false, notifiedAt := Undefined);
      rebase := rebase.(requested := false);
      session := session.(notAliveCount := 0);
      mergeFailCount := 0;
    }

    method HandleFixingForward(cfg: Config, snap: Snapshot, now: int) returns (reply: Reply)
      modifies this
      ensures Does(L.HandleFixingForward(cfg, old(View()), snap, now), reply) && !reply.NullReply?
    {
      hide L.Transition, L.Finish, L.AdoptRepairPr, L.HandleCiPending;
      var clean := if repair.workspace.Workspace? then [CleanForwardFixer(id)] else [];
      if snap.prNumber.Ref? && (snap.prState.Open? || snap.prState.PrMerged?) {
        AdoptRepairPr(snap.prNumber.n);
        if snap.prState.PrMerged? {
          :- Transition(Merged, now);
          return Acts(clean);
        }
        :- Transition(CiPending, now);
        reply := HandleCiPending(cfg, snap, now);
        return;
      }
      if snap.mergeCommitCi.Pass? {
        reply := Finish(clean, now);
        return;
      }
      if repair.workspace.Workspace? {
        var liveness := CheckWorkerLiveness(snap);
        if liveness.Dead? {
          :- Transition(Stuck, now);
          return Acts([CleanForwardFixer(id)]);
        }
      }
      reply := Acts([]);
    }

    /** Back to the queue, off the stuck base branch. */
    method RollBack(now: int)
      requires state.Ready? || state.Launching?
      modifies this
      ensures var queued := L.Enter(old(View()), Queued, now); View() == queued.(pr := queued.pr.(baseBranch := Absent))
    {
      var outcome := Transition(Queued, now);
      pr := pr.(baseBranch := Absent);
    }

    // ---- One item, one poll ---------------------------------------------------------------

    /** interceptExternalMerge, once the merge is detected. */
    method InterceptExternalMerge(snap: Snapshot, now: int) returns (reply: Reply)
      modifies this
      ensures Does(L.InterceptExternalMerge(old(View()), snap, now), reply) && !reply.NullReply?
    {
      hide L.Transition;
      if snap.prNumber.Ref? && pr.number.Absent? {
        pr := pr.(number := snap.prNumber);
      }
      var reviewing, fixing := review.workspace.Workspace?, repair.workspace.Workspace?;
      :- Transition(Merged, now);
      var actions := [Clean(id)];
      if reviewing {
        actions := actions + [CleanReview(id)];
      }
      if fixing {
        actions := actions + [CleanForwardFixer(id)];
      }
      reply := Acts(actions);
    }

    method UpdateRebaseTracking(snap: Snapshot, now: int)
      modifies `rebase
      ensures View() == L.UpdateRebaseTracking(old(View()), snap, now)
    {
      if !L.TracksRebase(state) {
        return;
      }
      if snap.isMergeable.Yes? {
        rebase := rebase.(requested := false, lastNudgeAt := Undefined, nudgeCount := 0, attempts := 0);
        return;
      }
      var commit := OrTime(snap.lastCommitTime, pr.lastCommitTime);
      if rebase.lastNudgeAt.At? && commit.At? && commit.ms > rebase.lastNudgeAt.ms {
        ResetRebaseRetryCooldown(OrTime(snap.lastCommitTime, snap.eventTime), now);
      }
    }

    /** The switch of transitionItem. */
    method Handle(cfg: Config, snap: Snapshot, now: int) returns (reply: Reply)
      modifies this
      ensures Does(L.Handle(cfg, old(View()), snap, now), reply) && !reply.NullReply?
    {
      hide L.HandleLaunching, L.HandleImplementing, L.HandleCiPending, L.HandleCiPassed, L.HandleCiFailed, L.HandleRebasing,
           L.HandleReviewing, L.HandleReviewPending, L.HandleMerging, L.HandleMerged, L.HandleForwardFixPending,
           L.HandleFixForwardFailed, L.HandleFixingForward;
      match state
      case Launching => reply := HandleLaunching(cfg, snap, now);
      case Implementing => reply := HandleImplementing(cfg, snap, now);
      case CiPending => reply := HandleCiPending(cfg, snap, now);
      case CiPassed => reply := HandleCiPassed(cfg, snap, now);
      case CiFailed => reply := HandleCiFailed(cfg, snap, now);
      case Rebasing => reply := HandleRebasing(snap, now);
      case Reviewing => reply := HandleReviewing(cfg, snap, now);
      case ReviewPending => reply := HandleReviewPending(cfg, snap, now);
      case Merging => reply := HandleMerging(cfg, snap, now);
      case Merged => reply := HandleMerged(cfg, snap, now);
      case ForwardFixPending => reply := HandleForwardFixPending(snap, now);
      case FixForwardFailed => reply := HandleFixForwardFailed(cfg, snap, now);
      case FixingForward => reply := HandleFixingForward(cfg, snap, now);
      case Queued => reply := Acts([]);
      case Ready => reply := Acts([]);
      case Done => reply := Acts([]);
      case Blocked => reply := Acts([]);
      case Stuck => reply := Acts([]);
    }

    /** transitionItem up to its effects on other items; the flag says that an external merge ended it. */
    method TransitionBody(cfg: Config, snap: Snapshot, now: int) returns (reply: Reply, intercepted: bool)
      modifies this
      ensures Does(L.Body(cfg, old(View()), snap, now), reply) && !reply.NullReply?
      ensures intercepted == L.ExternallyMerged(old(View()), snap)
    {
      hide L.InterceptExternalMerge, L.UpdateRebaseTracking, L.IngestPendingFeedbackBatch, L.Handle;
      repair := repair.(mergeCommit := OrRef(snap.mergeCommit, repair.mergeCommit));
      intercepted := L.DetectsExternalMerge(state) && snap.prState.PrMerged?;
      if intercepted {
        reply := InterceptExternalMerge(snap, now);
        return;
      }
      UpdateRebaseTracking(snap, now);
      IngestPendingFeedbackBatch(snap);
      reply := Handle(cfg, snap, now);
    }

    /** The last statements of transitionItem. */
    method TransitionTail(snap: Snapshot, now: int) returns (reply: Reply)
      modifies this
      ensures Does(L.Tail(old(View()), snap, now), reply) && !reply.NullReply?
    {
      hide L.ResolvePendingFeedbackBatch;
      reply := ResolvePendingFeedbackBatch(snap, now);
      if reply.NullReply? {
        reply := Acts([]);
      }
    }
  }

  lemma SampleKeepsFeedback(it: Item, snap: Snapshot)
    ensures var seen := L.SampleForDelivery(it, snap); seen == it.(session := seen.session)
  {
  }

  lemma MarkKeeps(it: Item, snap: Snapshot, now: int)
    ensures var seen := L.MarkWorking(it, snap, now);
      seen == it.(session := seen.session)
  {
  }

  lemma PlanKeeps(cfg: Config, it: Item, now: int)
    ensures var step := L.PlanRebaseConflictAction(cfg, it, now);
      step.Step? && step.item == it.(rebase := step.item.rebase)
  {
  }

  /** The stall detector does not look at the rebase fields. */
  lemma StalledByTimes(cfg: Config, it: Item, snap: Snapshot, now: int)
    ensures forall other: Item :: other == it.(rebase := other.rebase) ==>
      L.InboxWaitStalled(cfg, other, snap, now) == L.InboxWaitStalled(cfg, it, snap, now)
  {
  }
}
