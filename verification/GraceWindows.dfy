/**
 * The grace window of a worker that is overdue: the first poll that finds it so opens the window, and it
 * is given up by the first such poll after the window closed (core/orchestrator.ts).
 */
module GraceWindows {
  import opened OrchestratorTypes
  import opened OrchestratorGuards
  import opened Lifecycle
  import opened LifecycleFacts
  import opened LifecycleSteps
  import opened Destinations
  import opened PollEffects

  /** The worker has not shown up, or has done nothing, for too long. */
  predicate Late(cfg: Config, it: Item, snap: Snapshot, now: int) {
    || (it.state.Launching? && snap.workerAlive.NotAsked? && now > it.lastTransition + Minutes(5))
    || (&& it.state.Implementing? && NoPrNews(it, snap) && !(snap.prNumber.Absent? && DeadBy(it, snap, 1))
        && !Heard(snap, now) && Overdue(cfg, it, snap, now))
  }

  /** The deadline on record after a poll that leaves the item where it is. */
  function DeadlineAfter(cfg: Config, it: Item, snap: Snapshot, now: int): Time {
    if Late(cfg, it, snap, now) && cfg.gracePeriodMs > 0 && !it.session.timeoutDeadline.At? then At(now + cfg.gracePeriodMs)
    else it.session.timeoutDeadline
  }

  predicate KeepsWindow(cfg: Config, it: Item, step: Step, snap: Snapshot, now: int) {
    step.Step? && step.item.state == it.state ==> step.item.session.timeoutDeadline == DeadlineAfter(cfg, it, snap, now)
  }

  lemma LaunchingWindow(cfg: Config, it: Item, snap: Snapshot, now: int)
    requires it.state.Launching?
    ensures KeepsWindow(cfg, it, HandleLaunching(cfg, it, snap, now), snap, now)
  {
    hide StuckOrRetry;
    LetGoMoves(cfg, CountLiveness(it, snap), now);
  }

  lemma LetGoMoves(cfg: Config, it: Item, now: int)
    requires it.state.Launching? || it.state.Implementing?
    ensures var step := StuckOrRetry(cfg, it, now); step.Step? && (step.item.state.Ready? || step.item.state.Stuck?)
    ensures var step := RecoverHeadlessWorker(it, now); step.Step? && step.item.state.Ready?
    ensures forall message :: RespawnForFeedback(it, message, now).Step? && RespawnForFeedback(it, message, now).item.state.Ready?
  {
  }

  lemma WorkingWindow(cfg: Config, it: Item, tracked: Item, snap: Snapshot, now: int)
    requires it.state.Implementing? && NoPrNews(it, snap)
    requires tracked == it || (snap.prNumber.Ref? && snap.prState.Open? && tracked == TrackPr(it, snap))
    ensures KeepsWindow(cfg, it, HandleWorking(cfg, tracked, snap, now), snap, now)
  {
    hide StuckOrRetry, RespawnForFeedback, RecoverHeadlessWorker, WorkTimedOut, InboxWaitStalled, MarkWorking, NoPrNews, LivenessOf,
         IsHeartbeatActive, IsRecoverableHeadlessStop, Heard, Overdue, Recoverable;
    var seen := MarkWorking(tracked, snap, now);
    MarkSamples(it, tracked, snap, now);
    WorkConditions(cfg, it, tracked, snap, now);
    LetGoMoves(cfg, seen, now);
  }

  lemma ImplementingWindow(cfg: Config, it: Item, snap: Snapshot, now: int)
    requires it.state.Implementing?
    ensures KeepsWindow(cfg, it, HandleImplementing(cfg, it, snap, now), snap, now)
  {
    hide HandleOpenPr, HandleWorking, KeepsWindow;
    if snap.prNumber.Ref? && snap.prState.Open? {
      if NoPrNews(it, snap) {
        NoNewsDeclines(cfg, it, snap, now);
        WorkingWindow(cfg, it, TrackPr(it, snap), snap, now);
        NoWindow(cfg, it, HandleOpenPr(cfg, it, snap, now), snap, now);
      } else {
        NewsAnswers(cfg, it, snap, now);
        NewsMoveOn(cfg, it, snap, now);
        NoWindow(cfg, it, HandleOpenPr(cfg, it, snap, now), snap, now);
      }
    } else {
      WorkingWindow(cfg, it, it, snap, now);
    }
  }

  lemma NoWindow(cfg: Config, it: Item, step: Step, snap: Snapshot, now: int)
    requires step.Step? ==> step.item.state != it.state
    ensures KeepsWindow(cfg, it, step, snap, now)
  {
  }

  /** A pull request with news takes the item out of implementing. */
  lemma NewsMoveOn(cfg: Config, it: Item, snap: Snapshot, now: int)
    requires it.state.Implementing? && snap.prNumber.Ref? && snap.prState.Open? && !NoPrNews(it, snap)
    ensures var step := HandleOpenPr(cfg, it, snap, now); step.Step? ==> !step.item.state.Implementing?
  {
    hide ResumeCi, TryHandleNoNewInfo;
    ResumedMovesOn(cfg, TrackPr(it, snap), snap, [], now);
    ResumedMovesOn(cfg, RecordPushback(it, snap), snap, [ClearPushback(it.id)], now);
    ResumedMovesOn(cfg, TrackPr(FinishFeedback(it), snap), snap, [ClearFeedbackDone(it.id)], now);
    SettleThrows(it, snap, now);
  }

  lemma ResumedMovesOn(cfg: Config, it: Item, snap: Snapshot, signal: seq<Action>, now: int)
    requires it.state.Implementing?
    ensures var step := ResumeCi(cfg, it, snap, signal, now); step.Step? ==> !step.item.state.Implementing?
  {
    hide HandleCiPending, SessionKept, BudgetsKept, CiKept, PrKept, RepairKept, RebaseKept, ReviewKept, GoesOn;
    var pending := Enter(it, CiPending, now);
    CheckFits(cfg, pending, snap, now);
  }

  /** Over a whole poll the window opens exactly when the worker is first found late. */
  lemma OpensExactly(cfg: Config, it: Item, snap: Snapshot, now: int)
    requires (it.state.Launching? || it.state.Implementing?) && ParkedOk(it) && TransitionItem(cfg, it, snap, now).Step?
    ensures KeepsWindow(cfg, it, TransitionItem(cfg, it, snap, now), snap, now)
  {
    hide Seen, Tail, HandleLaunching, HandleImplementing, DeadlineAfter;
    if !ExternallyMerged(it, snap) {
      SeenStands(it, snap, now);
      var seen := Seen(it, snap, now);
      if it.state.Launching? {
        LaunchingWindow(cfg, seen, snap, now);
      } else {
        ImplementingWindow(cfg, seen, snap, now);
      }
      SameWindow(cfg, it, seen, snap, now);
      BodyParks(cfg, it, snap, now);
      TailKeepsWindow(Body(cfg, it, snap, now).item, snap, now);
    }
  }

  lemma SameWindow(cfg: Config, it: Item, seen: Item, snap: Snapshot, now: int)
    requires seen == it.(rebase := seen.rebase, feedback := seen.feedback, repair := seen.repair)
    ensures DeadlineAfter(cfg, seen, snap, now) == DeadlineAfter(cfg, it, snap, now)
  {
  }

  lemma TailKeepsWindow(it: Item, snap: Snapshot, now: int)
    requires ParkedOk(it)
    ensures var tail := Tail(it, snap, now);
      tail.Step? && (tail.item.state.Launching? || tail.item.state.Implementing?) ==>
        tail.item.state == it.state && tail.item.session.timeoutDeadline == it.session.timeoutDeadline
  {
    hide DeliverBatch;
    if BatchDue(it, now) && !it.session.parked {
      DeliverKeepsWindow(TakeBatch(SampleForDelivery(it, snap), snap), snap, now);
    }
  }

  lemma DeliverKeepsWindow(it: Item, snap: Snapshot, now: int)
    ensures var step := DeliverBatch(it, snap, now);
      step.Step? && (step.item.state.Launching? || step.item.state.Implementing?) ==>
        step.item.state == it.state && step.item.session.timeoutDeadline == it.session.timeoutDeadline
  {
  }

  /** A recoverable worker is relaunched without a retry; any other is given up. */
  predicate GoesBack(s: State) {
    s.Ready? || s.Stuck?
  }

  /**
   * Main result: a late worker gets the grace period, and no more. The first poll that finds it late
   * leaves the item in place, and a later one that finds it late takes it back exactly when the period
   * is over.
   */
  lemma GraceExactly(cfg: Config, it: Item, first: Snapshot, t: int, second: Snapshot, u: int)
    requires (it.state.Launching? || it.state.Implementing?) && ParkedOk(it) && !it.session.timeoutDeadline.At? && cfg.gracePeriodMs > 0
    requires Late(cfg, it, first, t) && !first.prState.PrMerged? && !second.prState.PrMerged?
    requires TransitionItem(cfg, it, first, t).Step?
    ensures var one := TransitionItem(cfg, it, first, t);
      && one.item.state == it.state
      && (TransitionItem(cfg, one.item, second, u).Step? && Late(cfg, one.item, second, u) ==>
            (GoesBack(TransitionItem(cfg, one.item, second, u).item.state) <==> u >= t + cfg.gracePeriodMs))
  {
    hide TransitionItem, IngestPendingFeedbackBatch, Checked, Overdue, NoPrNews, Recoverable, Stalled, Sound;
    var one := TransitionItem(cfg, it, first, t);
    EndsExactly(cfg, it, first, t);
    IngestStays(it, first);
    LateStays(cfg, it, IngestPendingFeedbackBatch(it, first), first, t);
    OpensExactly(cfg, it, first, t);
    ThrowsExactly(cfg, it, first, t);
    if TransitionItem(cfg, one.item, second, u).Step? && Late(cfg, one.item, second, u) {
      EndsExactly(cfg, one.item, second, u);
      IngestStays(one.item, second);
      LateStays(cfg, one.item, IngestPendingFeedbackBatch(one.item, second), second, u);
    }
  }

  lemma IngestStays(it: Item, snap: Snapshot)
    ensures var held := IngestPendingFeedbackBatch(it, snap); held == it.(feedback := held.feedback)
  {
  }

  /** A late worker's item stays while it is in its grace period, and goes back afterwards. */
  lemma LateStays(cfg: Config, it: Item, held: Item, snap: Snapshot, now: int)
    requires Late(cfg, it, snap, now) && held == it.(feedback := held.feedback) && !snap.prState.PrMerged?
    ensures var to := Destination(cfg, held, snap, now);
      if InGrace(cfg, it, now) then to == it.state else GoesBack(to)
  {
    hide Checked, Stalled;
  }
}
