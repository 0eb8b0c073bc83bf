/**
 * When a worker counts as dead. Five not-alive polls in a row are promised; readings are counted
 * instead, unknown ones neither count nor interrupt, and a poll that delivers comments reads twice.
 */
module LivenessReadings {
  import opened OrchestratorTypes
  import opened OrchestratorGuards
  import opened Lifecycle
  import opened LifecycleFacts
  import opened LifecycleSteps
  import opened FeedbackTiming

  // ---- Readings ---------------------------------------------------------------------------

  /** The item after some liveness readings. */
  function AfterReadings(it: Item, readings: seq<Snapshot>): Item {
    if readings == [] then it else CountLiveness(AfterReadings(it, readings[..|readings| - 1]), readings[|readings| - 1])
  }

  predicate SomeAlive(readings: seq<Snapshot>) {
    exists k :: 0 <= k < |readings| && readings[k].workerAlive.Yes?
  }

  /** The not-alive readings since the last alive one. */
  function NotAliveSince(readings: seq<Snapshot>): nat {
    if readings == [] then 0
    else
      var last := readings[|readings| - 1].workerAlive;
      if last.Yes? then 0 else NotAliveSince(readings[..|readings| - 1]) + (if last.No? then 1 else 0)
  }

  /**
   * Main result: a reading finds the worker dead exactly when it is not alive and at least the fifth
   * such since the last alive reading. Unknown readings in between change nothing.
   */
  lemma {:induction false} DeadExactly(it: Item, readings: seq<Snapshot>, reading: Snapshot)
    ensures var past := if SomeAlive(readings) then 0 else it.session.notAliveCount;
      && AfterReadings(it, readings).session.notAliveCount == past + NotAliveSince(readings)
      && (LivenessOf(AfterReadings(it, readings), reading).Dead? <==>
            reading.workerAlive.No? && past + NotAliveSince(readings) + 1 >= NOT_ALIVE_THRESHOLD)
  {
    if readings != [] {
      var last := |readings| - 1;
      DeadExactly(it, readings[..last], reading);
      assert SomeAlive(readings[..last]) ==> SomeAlive(readings);
      assert SomeAlive(readings) ==> readings[last].workerAlive.Yes? || SomeAlive(readings[..last]);
    }
  }

  // ---- Two readings in one poll -----------------------------------------------------------

  /** The last step of transitionItem reads once more when it delivers a batch. */
  lemma TailReads(it: Item, snap: Snapshot, now: int)
    requires !it.session.parked && !it.state.ReviewPending? && !it.state.CiPassed? && !it.state.Merging?
    requires it.session.workspace.Workspace?
    ensures var step := Tail(it, snap, now);
      && step.Step? && step.item.state == it.state && step.item.session.workspace == it.session.workspace && !step.item.session.parked
      && step.item.session.notAliveCount == (if BatchDue(it, now) then CountLiveness(it, snap) else it).session.notAliveCount
  {
  }

  /** Nothing but liveness can end the work of the implementer in this poll. */
  predicate KeepsWorking(cfg: Config, it: Item, snap: Snapshot, now: int) {
    var seen := MarkWorking(it, snap, now);
    || IsHeartbeatActive(snap.heartbeatAt, now, HEARTBEAT_MS)
    || (!WorkTimedOut(cfg, it, seen, snap, now)
        && !(HandoffPending(seen) && snap.inboxWaitingSince.At? && InboxWaitStalled(cfg, seen, snap, now)))
  }

  /** CI keeps failing and the worker acknowledged it. */
  predicate KeepsFixing(cfg: Config, it: Item, snap: Snapshot, now: int) {
    && it.ci.failCount <= cfg.maxCiRetries && !snap.ciStatus.Pass? && !snap.ciStatus.InProgress? && !snap.isMergeable.No?
    && !CiFixUnacknowledged(it, snap, now)
  }

  /** The handler of the item's state reads the worker's liveness, and the reading alone decides. */
  predicate Watched(cfg: Config, it: Item, snap: Snapshot, now: int) {
    match it.state
    case Launching => true
    case Implementing => snap.prNumber.Absent? && KeepsWorking(cfg, it, snap, now)
    case CiFailed => KeepsFixing(cfg, it, snap, now)
    case Reviewing =>
      it.review.workspace.Workspace? && ReviewGoesOn(cfg, it, snap) && !snap.ciStatus.Fail? && !snap.isMergeable.No?
    case _ => false
  }

  /** What one more not-alive reading below the threshold leaves. */
  predicate ReadOnce(it: Item, step: Step) {
    && step.Step? && step.item.state == it.state && step.item.session.workspace == it.session.workspace && !step.item.session.parked
    && step.item.session.notAliveCount == it.session.notAliveCount + 1
  }

  lemma LaunchingReads(cfg: Config, it: Item, snap: Snapshot, now: int)
    requires it.state.Launching? && snap.workerAlive.No? && it.session.notAliveCount + 1 < NOT_ALIVE_THRESHOLD && !it.session.parked
    ensures var step := HandleLaunching(cfg, it, snap, now); ReadOnce(it, step) && step.item.feedback == it.feedback
  {
  }

  lemma ImplementingReads(cfg: Config, it: Item, snap: Snapshot, now: int)
    requires it.state.Implementing? && snap.workerAlive.No? && it.session.notAliveCount + 1 < NOT_ALIVE_THRESHOLD && !it.session.parked
    requires snap.prNumber.Absent? && KeepsWorking(cfg, it, snap, now)
    ensures var step := HandleImplementing(cfg, it, snap, now); ReadOnce(it, step) && step.item.feedback == it.feedback
  {
    hide StuckOrRetry, OnTimeout, RespawnForFeedback, WorkTimedOut, InboxWaitStalled;
  }

  lemma ReviewingReads(cfg: Config, it: Item, snap: Snapshot, now: int)
    requires it.state.Reviewing? && snap.workerAlive.No? && it.session.notAliveCount + 1 < NOT_ALIVE_THRESHOLD && !it.session.parked
    requires Watched(cfg, it, snap, now)
    ensures var step := HandleReviewing(cfg, it, snap, now); ReadOnce(it, step) && step.item.feedback == it.feedback
  {
    hide PassAndEvaluate, PlanRebaseConflictAction;
  }

  /** The ci-failed handler delivers a due batch itself, so both readings are its own. */
  lemma CiFailedReads(cfg: Config, it: Item, snap: Snapshot, now: int)
    requires it.state.CiFailed? && snap.workerAlive.No? && it.session.notAliveCount + 1 < NOT_ALIVE_THRESHOLD && !it.session.parked
    requires it.session.workspace.Workspace? && KeepsFixing(cfg, it, snap, now)
    ensures var step := HandleCiFailed(cfg, it, snap, now);
      && step.Step? && step.item.state.CiFailed? && step.item.session.workspace == it.session.workspace && !step.item.session.parked
      && step.item.session.notAliveCount == it.session.notAliveCount + (if BatchDue(it, now) then 2 else 1)
      && !BatchDue(step.item, now)
  {
    hide RespawnCiFixWorker, HandleCiPassed, RestartCi, PlanRebaseConflictAction, CiFixUnacknowledged, Tail, ResolvePendingFeedbackBatch;
    var notified := NotifyStillFailing(it, now);
    var seen := CountLiveness(notified.item, snap);
    TailReads(seen, snap, now);
    TailDelivers(seen, snap, now);
    TailIsResolve(seen, snap, now);
  }

  lemma QuietTail(it: Item, snap: Snapshot, now: int)
    requires !BatchDue(it, now)
    ensures Tail(it, snap, now) == Step(it, [])
  {
  }

  /**
   * Main result: below the threshold one not-alive poll of a watched item counts two readings
   * exactly when a batch of comments falls due in it, and one otherwise.
   */
  lemma CountsTwiceExactly(cfg: Config, it: Item, snap: Snapshot, now: int)
    requires ParkedOk(it) && !snap.prState.PrMerged? && Watched(cfg, it, snap, now)
    requires snap.workerAlive.No? && it.session.workspace.Workspace? && it.session.notAliveCount + 1 < NOT_ALIVE_THRESHOLD
    ensures var step := TransitionItem(cfg, it, snap, now);
      && step.Step? && step.item.state == it.state && step.item.session.workspace == it.session.workspace && ParkedOk(step.item)
      && step.item.session.notAliveCount
           == it.session.notAliveCount + (if BatchDue(IngestPendingFeedbackBatch(it, snap), now) then 2 else 1)
  {
    hide Seen, HandleLaunching, HandleImplementing, HandleCiFailed, HandleReviewing, Tail, IngestPendingFeedbackBatch, KeepsWorking,
         KeepsFixing;
    SeenStands(it, snap, now);
    IngestKeepsMessage(it, snap);
    var seen := Seen(it, snap, now);
    SeenWatched(cfg, it, seen, snap, now);
    match it.state {
      case Launching => LaunchingReads(cfg, seen, snap, now);
      case Implementing => ImplementingReads(cfg, seen, snap, now);
      case CiFailed => CiFailedReads(cfg, seen, snap, now);
      case Reviewing => ReviewingReads(cfg, seen, snap, now);
    }
    var body := Body(cfg, it, snap, now);
    if it.state.CiFailed? {
      QuietTail(body.item, snap, now);
    } else {
      TailReads(body.item, snap, now);
    }
  }

  lemma SeenWatched(cfg: Config, it: Item, seen: Item, snap: Snapshot, now: int)
    requires Watched(cfg, it, snap, now)
    requires seen == it.(rebase := seen.rebase, feedback := it.feedback.(batch := seen.feedback.batch), repair := seen.repair)
    ensures Watched(cfg, seen, snap, now)
  {
  }

  /**
   * In review-pending a due batch that cannot be delivered is tried by the handler and again by the
   * last step: two readings, and the batch still waits.
   */
  lemma WaitingBatchReadsTwice(cfg: Config, it: Item, snap: Snapshot, now: int)
    requires it.state.ReviewPending? && HandsOffFirst(cfg, it, snap) && !HandoffPending(it) && !it.session.parked && !snap.prState.PrMerged?
    requires snap.workerAlive.No? && it.session.workspace.Workspace? && it.session.notAliveCount + 2 < NOT_ALIVE_THRESHOLD
    requires BatchDue(IngestPendingFeedbackBatch(it, snap), now)
    ensures var step := TransitionItem(cfg, it, snap, now);
      && step.Step? && step.item.state.ReviewPending? && BatchDue(step.item, now)
      && step.item.session.notAliveCount == it.session.notAliveCount + 2
  {
    hide Seen, IngestPendingFeedbackBatch, PassAndEvaluate, ResumeCi, RestartCi, HandleSettledReview;
    SeenStands(it, snap, now);
    IngestKeepsMessage(it, snap);
    var seen := Seen(it, snap, now);
    assert Body(cfg, it, snap, now) == Step(CountLiveness(seen, snap), []);
  }

  // ---- Five polls in a row ----------------------------------------------------------------

  /** One poll. */
  datatype Look = Look(snap: Snapshot, now: int)

  /** The item after some polls of it alone. */
  function Watch(cfg: Config, it: Item, looks: seq<Look>): Step {
    if looks == [] then Step(it, [])
    else
      var before := Watch(cfg, it, looks[..|looks| - 1]);
      var look := looks[|looks| - 1];
      if before.Step? then TransitionItem(cfg, before.item, look.snap, look.now) else before
  }

  /** No poll of these sees the worker alive, or misses it. */
  predicate NeverAlive(looks: seq<Look>) {
    forall k :: 0 <= k < |looks| ==> looks[k].snap.workerAlive.No?
  }

  /** A batch of comments falls due in this poll of the item. */
  predicate DueIn(before: Step, look: Look) {
    before.Step? && BatchDue(IngestPendingFeedbackBatch(before.item, look.snap), look.now)
  }

  /** How many of the polls found a batch due. */
  function Dues(cfg: Config, it: Item, looks: seq<Look>): nat {
    if looks == [] then 0
    else
      var last := |looks| - 1;
      Dues(cfg, it, looks[..last]) + (if DueIn(Watch(cfg, it, looks[..last]), looks[last]) then 1 else 0)
  }

  /** Launching, with the worker's workspace. */
  predicate Waits(step: Step, count: int) {
    && step.Step? && step.item.state.Launching? && step.item.session.workspace.Workspace? && ParkedOk(step.item)
    && step.item.session.notAliveCount == count
  }

  /** Given up: retried or stuck, and out of the reach of further polls. */
  predicate GivenUp(step: Step) {
    step.Step? && (step.item.state.Ready? || step.item.state.Stuck?) && !step.item.session.parked
  }

  lemma LaunchingGivenUp(cfg: Config, it: Item, snap: Snapshot, now: int)
    requires it.state.Launching? && ParkedOk(it) && snap.workerAlive.No? && it.session.notAliveCount + 1 >= NOT_ALIVE_THRESHOLD
    ensures GivenUp(TransitionItem(cfg, it, snap, now))
  {
    hide Seen, Tail, HandleLaunching, Delivered;
    SeenStands(it, snap, now);
    LaunchEnds(cfg, Seen(it, snap, now), snap, now);
    var body := Body(cfg, it, snap, now);
    TailDelivers(body.item, snap, now);
    TailStaysUnparked(body.item, snap, now);
  }

  lemma LaunchEnds(cfg: Config, it: Item, snap: Snapshot, now: int)
    requires it.state.Launching? && ParkedOk(it) && snap.workerAlive.No? && it.session.notAliveCount + 1 >= NOT_ALIVE_THRESHOLD
    ensures GivenUp(HandleLaunching(cfg, it, snap, now))
  {
  }

  lemma GivenUpStays(cfg: Config, it: Item, snap: Snapshot, now: int)
    requires GivenUp(Step(it, []))
    ensures GivenUp(TransitionItem(cfg, it, snap, now))
  {
    hide Seen, Tail;
    SeenStands(it, snap, now);
    TailDelivers(Seen(it, snap, now), snap, now);
    TailStaysUnparked(Seen(it, snap, now), snap, now);
  }

  lemma TailStaysUnparked(it: Item, snap: Snapshot, now: int)
    requires !it.session.parked && !it.state.ReviewPending? && !it.state.CiPassed? && !it.state.Merging?
    ensures var step := Tail(it, snap, now); step.Step? && !step.item.session.parked
  {
  }

  /** After some not-alive polls the item waits with every reading counted, or was given up at the threshold. */
  lemma {:induction false} WatchCounts(cfg: Config, it: Item, looks: seq<Look>)
    requires Waits(Step(it, []), 0) && NeverAlive(looks)
    ensures var count := |looks| + Dues(cfg, it, looks);
      var step := Watch(cfg, it, looks);
      Waits(step, count) || (GivenUp(step) && exists m :: 0 <= m < |looks| && m + Dues(cfg, it, looks[..m]) + 1 >= NOT_ALIVE_THRESHOLD)
    ensures Waits(Watch(cfg, it, looks), |looks| + Dues(cfg, it, looks)) ==>
      forall m :: 0 <= m < |looks| ==> m + Dues(cfg, it, looks[..m]) + 1 < NOT_ALIVE_THRESHOLD
  {
    hide TransitionItem, DueIn, IngestPendingFeedbackBatch;
    if looks != [] {
      var last := |looks| - 1;
      var earlier := looks[..last];
      WatchCounts(cfg, it, earlier);
      var before := Watch(cfg, it, earlier);
      assert forall m :: 0 <= m <= last ==> earlier[..m] == looks[..m];
      if GivenUp(before) {
        GivenUpStays(cfg, before.item, looks[last].snap, looks[last].now);
      } else if last + Dues(cfg, it, earlier) + 1 >= NOT_ALIVE_THRESHOLD {
        LaunchingGivenUp(cfg, before.item, looks[last].snap, looks[last].now);
      } else {
        WaitsOn(cfg, before, looks[last]);
      }
    }
  }

  lemma WaitsOn(cfg: Config, before: Step, look: Look)
    requires before.Step? && Waits(before, before.item.session.notAliveCount) && look.snap.workerAlive.No?
    requires before.item.session.notAliveCount + 1 < NOT_ALIVE_THRESHOLD
    ensures var count := before.item.session.notAliveCount + 1 + (if DueIn(before, look) then 1 else 0);
      Waits(TransitionItem(cfg, before.item, look.snap, look.now), count)
  {
    hide TransitionItem, IngestPendingFeedbackBatch;
    LaunchingUnmerged(cfg, before.item, look.snap, look.now);
  }

  /** A merge from outside is not looked for while the worker starts. */
  lemma LaunchingUnmerged(cfg: Config, it: Item, snap: Snapshot, now: int)
    requires it.state.Launching? && ParkedOk(it) && snap.workerAlive.No? && it.session.workspace.Workspace?
    requires it.session.notAliveCount + 1 < NOT_ALIVE_THRESHOLD
    ensures var step := TransitionItem(cfg, it, snap, now);
      && step.Step? && step.item.state.Launching? && step.item.session.workspace == it.session.workspace && ParkedOk(step.item)
      && step.item.session.notAliveCount
           == it.session.notAliveCount + (if BatchDue(IngestPendingFeedbackBatch(it, snap), now) then 2 else 1)
  {
    hide Seen, HandleLaunching, Tail, IngestPendingFeedbackBatch;
    SeenStands(it, snap, now);
    var seen := Seen(it, snap, now);
    LaunchingReads(cfg, seen, snap, now);
    TailReads(Body(cfg, it, snap, now).item, snap, now);
  }

  /**
   * Main result: over polls that never see the worker alive, a launching item is given up at the
   * fifth poll in a row exactly when no batch of comments falls due in the first three; else earlier.
   */
  lemma FivePollsExactly(cfg: Config, it: Item, looks: seq<Look>)
    requires Waits(Step(it, []), 0) && NeverAlive(looks) && |looks| == NOT_ALIVE_THRESHOLD
    ensures GivenUp(Watch(cfg, it, looks))
    ensures Watch(cfg, it, looks[..4]).Step?
    ensures Watch(cfg, it, looks[..4]).item.state.Launching? <==> Dues(cfg, it, looks[..3]) == 0
  {
    hide TransitionItem, DueIn, Watch;
    WatchCounts(cfg, it, looks);
    WatchCounts(cfg, it, looks[..4]);
    var four := looks[..4];
    assert four[..0] == looks[..0] && four[..1] == looks[..1] && four[..2] == looks[..2] && four[..3] == looks[..3];
    DuesGrow(cfg, it, looks, 0);
    DuesGrow(cfg, it, looks, 1);
    DuesGrow(cfg, it, looks, 2);
    DuesGrow(cfg, it, looks, 3);
    DuesGrow(cfg, it, looks, 4);
    assert looks[..5] == looks;
  }

  lemma DuesGrow(cfg: Config, it: Item, looks: seq<Look>, n: nat)
    requires n < |looks|
    ensures Dues(cfg, it, looks[..n]) <= Dues(cfg, it, looks[..n + 1]) <= Dues(cfg, it, looks[..n]) + 1
    ensures n == 0 ==> Dues(cfg, it, looks[..n]) == 0
  {
    hide Watch, DueIn;
    assert looks[..n + 1][..n] == looks[..n];
  }

  /**
   * A comment waited when the worker was relaunched, and its deadline passes before the first poll of
   * the new worker: it is given up at the fourth.
   */
  lemma FourPollsSuffice(cfg: Config, w: WorkItem, deadline: int)
    ensures var added := NewItem(w, 0);
      var it := added.(state := Launching, session := added.session.(workspace := Workspace(1, false)),
                       feedback := added.feedback.(batch := Batch({Comment(1, 0, false)}, deadline)));
      var quiet := Look(NoSnapshot().(workerAlive := No), deadline);
      GivenUp(Watch(cfg, it, [quiet, quiet, quiet, quiet]))
  {
    hide TransitionItem, Watch, DueIn, Dues;
    var added := NewItem(w, 0);
    var it := added.(state := Launching, session := added.session.(workspace := Workspace(1, false)),
                     feedback := added.feedback.(batch := Batch({Comment(1, 0, false)}, deadline)));
    var quiet := Look(NoSnapshot().(workerAlive := No), deadline);
    var looks := [quiet, quiet, quiet, quiet, quiet];
    FivePollsExactly(cfg, it, looks);
    assert looks[..4] == [quiet, quiet, quiet, quiet];
    WatchCounts(cfg, it, looks[..4]);
    assert Comment(1, 0, false) in it.feedback.batch.comments;
    FirstIsDue(cfg, it, looks);
  }

  lemma FirstIsDue(cfg: Config, it: Item, looks: seq<Look>)
    requires |looks| == 5 && BatchDue(it, looks[0].now) && looks[0].snap.newComments == []
    ensures Dues(cfg, it, looks[..3]) > 0
  {
    hide TransitionItem;
    assert IngestPendingFeedbackBatch(it, looks[0].snap) == it;
    assert looks[..1][..0] == [] && looks[..1][0] == looks[0] && Watch(cfg, it, []) == Step(it, []);
    DuesGrow(cfg, it, looks, 1);
    DuesGrow(cfg, it, looks, 2);
  }
}
