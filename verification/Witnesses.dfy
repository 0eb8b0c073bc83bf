/**
 * Runs from an empty orchestrator that end in an exception: both edges the transition table lacks
 * are reached by what GitHub and one worker may do, under any limits.
 */
module Witnesses {
  import opened OrchestratorTypes
  import opened OrchestratorGuards
  import opened Lifecycle
  import opened LifecycleFacts
  import opened LifecycleSteps
  import opened Poll
  import opened Execution
  import opened Run
  import opened FeedbackTiming
  import opened LawfulRuns

  // ---- Single polls -----------------------------------------------------------------------

  /** Nothing is pending for the item but what its state says, and no commit of it is known. */
  predicate Calm(it: Item, id: Id) {
    && it.id == id && !it.session.parked && it.feedback.batch.NoBatch? && !it.feedback.needsResponse
    && !it.pr.lastCommitTime.At? && !it.review.completed
  }

  /** The poll saw no merge, no conflict, no commit and no comment. */
  predicate Plain(snap: Snapshot) {
    && snap.mergeCommit.Absent? && snap.newComments == [] && snap.isMergeable.NotAsked? && !snap.prState.PrMerged?
    && !snap.lastCommitTime.At?
  }

  lemma SeenSame(it: Item, snap: Snapshot, now: int)
    requires Plain(snap) && !it.pr.lastCommitTime.At?
    ensures Seen(it, snap, now) == it
  {
  }

  lemma BodyIsHandle(cfg: Config, it: Item, snap: Snapshot, now: int)
    requires Plain(snap) && !it.pr.lastCommitTime.At?
    requires var step := Handle(cfg, it, snap, now); step.Step? && step.item.feedback.batch.NoBatch?
    ensures var step := Handle(cfg, it, snap, now);
      TransitionItem(cfg, it, snap, now) == Step(step.item, step.actions)
  {
    hide Handle;
    SeenSame(it, snap, now);
    var step := Handle(cfg, it, snap, now);
    assert step.actions + [] == step.actions;
  }

  lemma QueuedStays(cfg: Config, it: Item, now: int)
    requires it.state.Queued? && Calm(it, it.id)
    ensures TransitionItem(cfg, it, NoSnapshot(), now) == Step(it, [])
  {
    BodyIsHandle(cfg, it, NoSnapshot(), now);
  }

  lemma WorkerStarts(cfg: Config, it: Item, snap: Snapshot, now: int)
    requires it.state.Launching? && Calm(it, it.id) && Plain(snap) && snap.workerAlive.Yes?
    ensures var step := TransitionItem(cfg, it, snap, now);
      && step.Step? && step.item.state.Implementing? && Calm(step.item, it.id) && step.item.review == it.review
      && step.item.ci.failCount == it.ci.failCount
  {
    hide TransitionItem;
    BodyIsHandle(cfg, it, snap, now);
  }

  /** What a poll sees of an open pull request whose worker runs. */
  function Saw(status: Status): Snapshot {
    NoSnapshot().(prNumber := Ref(1), prState := Open, ciStatus := status, workerAlive := Yes)
  }

  lemma PrIsOpened(cfg: Config, it: Item, now: int)
    requires it.state.Implementing? && Calm(it, it.id) && it.review.lastReviewed.Absent?
    ensures var step := TransitionItem(cfg, it, Saw(InProgress), now);
      && step.Step? && step.item.state.CiPending? && Calm(step.item, it.id)
      && step.item.ci.failCount == it.ci.failCount && step.item.ci.pendingSince == At(now)
  {
    hide TransitionItem;
    var snap := Saw(InProgress);
    var pending := Enter(TrackPr(it, snap), CiPending, now);
    assert HandleCiPending(cfg, pending, snap, now) == Step(pending, []);
    BodyIsHandle(cfg, it, snap, now);
  }

  lemma CiFails(cfg: Config, it: Item, now: int)
    requires it.state.CiPending? && Calm(it, it.id)
    requires IsCiFailTrustworthy(it.ci.pendingSince, now, cfg.ciPendingFailGraceMs)
    ensures var step := TransitionItem(cfg, it, Saw(Fail), now);
      && step.Step? && step.item.state.CiFailed? && Calm(step.item, it.id) && step.item.ci.failCount == it.ci.failCount + 1
      && !step.item.ci.pendingSince.At? && step.actions == [NotifyCiFailure(it.id, it.pr.number)]
  {
    hide TransitionItem;
    BodyIsHandle(cfg, it, Saw(Fail), now);
  }

  lemma CiRestarts(cfg: Config, it: Item, now: int)
    requires it.state.CiFailed? && Calm(it, it.id) && it.ci.failCount <= cfg.maxCiRetries && !it.ci.pendingSince.At?
    ensures var step := TransitionItem(cfg, it, Saw(InProgress), now);
      && step.Step? && step.item.state.CiPending? && Calm(step.item, it.id) && step.item.ci.failCount == it.ci.failCount
      && !step.item.ci.pendingSince.At?
  {
    hide TransitionItem;
    BodyIsHandle(cfg, it, Saw(InProgress), now);
  }

  lemma ReviewStarts(cfg: Config, it: Item, snap: Snapshot, now: int)
    requires it.state.CiPending? && Calm(it, it.id) && Plain(snap) && snap.ciStatus.Pass? && !snap.noNewInfo
    requires it.review.lastReviewed.Absent? && it.review.round < cfg.maxReviewRounds && !cfg.skipReview
    ensures var step := TransitionItem(cfg, it, snap, now);
      && step.Step? && step.item.state.Reviewing? && Calm(step.item, it.id) && step.item.session.workspace == it.session.workspace
      && LaunchReview(it.id, it.pr.number) in step.actions
  {
    hide TransitionItem, EvaluateMerge;
    RoundStarts(cfg, Enter(it, CiPassed, now), snap, now);
    var step := EvaluateMerge(cfg, Enter(it, CiPassed, now), snap, now);
    assert HandleCiPending(cfg, it, snap, now) == step.After([]);
    assert step.After([]).actions == step.actions;
    BodyIsHandle(cfg, it, snap, now);
  }

  lemma RoundStarts(cfg: Config, it: Item, snap: Snapshot, now: int)
    requires it.state.CiPassed? && Calm(it, it.id) && !snap.noNewInfo
    requires it.review.lastReviewed.Absent? && it.review.round < cfg.maxReviewRounds && !cfg.skipReview
    ensures var step := EvaluateMerge(cfg, it, snap, now);
      && step.Step? && step.item.state.Reviewing? && Calm(step.item, it.id) && step.item.session.workspace == it.session.workspace
      && LaunchReview(it.id, it.pr.number) in step.actions
  {
    var step := LaunchReviewRound(cfg, it, snap, now);
    assert EvaluateMerge(cfg, it, snap, now) == step;
    assert step.actions[0] == LaunchReview(it.id, it.pr.number);
  }

  lemma ReviewAsks(cfg: Config, it: Item, snap: Snapshot, now: int)
    requires it.state.Reviewing? && Calm(it, it.id) && Plain(snap) && snap.reviewVerdict.RequestChanges?
    ensures var step := TransitionItem(cfg, it, snap, now);
      && step.Step? && step.item.state.ReviewPending? && Calm(step.item, it.id) && step.item.review.lastReviewed == snap.headSha
      && step.item.session.workspace == it.session.workspace && CleanReview(it.id) in step.actions
  {
    hide TransitionItem;
    assert HandleReviewing(cfg, it, snap, now).actions[0] == CleanReview(it.id);
    BodyIsHandle(cfg, it, snap, now);
  }

  lemma WorkerIsRelaunched(cfg: Config, it: Item, snap: Snapshot, now: int)
    requires it.state.ReviewPending? && Calm(it, it.id) && it.session.workspace.NoWorkspace? && UnchangedSinceReview(it, snap)
    requires snap == NoSnapshot().(headSha := snap.headSha)
    ensures var step := TransitionItem(cfg, it, snap, now);
      && step.Step? && step.item.state.Ready? && step.item.id == it.id && !step.item.session.parked && !step.item.review.completed
      && step.item.review.lastReviewed == it.review.lastReviewed
      && step.item.pr == it.pr && step.item.feedback.batch.NoBatch?
  {
    hide TransitionItem;
    BodyIsHandle(cfg, it, snap, now);
  }

  // ---- Executions -------------------------------------------------------------------------

  /** The answers to a launch: the item may start, and the worker `worker`. */
  function LaunchAnswers(worker: WorkerAnswer): Answers {
    Answers(Accept, worker, MergeAnswer(Unchecked, false, false, false, false, Absent, {}), true, false, false, Workspace(2, false))
  }

  /** A worker starts in its workspace, and its first message is delivered. */
  function WorkerRuns(): Answers {
    LaunchAnswers(WorkerAnswer.Started(Workspace(1, false), false))
  }

  lemma WorkerGetsWorkspace(cfg: Config, it: Item, base: Ref, now: int)
    requires it.state.Launching? && it.feedback.batch.NoBatch? && !it.session.parked && !it.pr.lastCommitTime.At? && !it.review.completed
    ensures var move := ExecuteAction(cfg, [it], it, Launch(it.id, base), WorkerRuns(), now);
      && move.Moved? && move.item.state.Launching? && move.item.review == it.review && move.item.ci.failCount == it.ci.failCount
      && Calm(move.item, it.id)
  {
  }

  lemma PrIsFound(cfg: Config, it: Item, base: Ref, now: int)
    requires it.state.Launching? && Calm(it, it.id)
    ensures var move := ExecuteAction(cfg, [it], it, Launch(it.id, base), LaunchAnswers(ExistingPr(1)), now);
      && move.Moved? && move.item.state.CiPending? && Calm(move.item, it.id) && move.item.review == it.review
      && move.item.session.workspace == it.session.workspace
  {
  }

  lemma WorkerIsNotified(cfg: Config, it: Item, pr: Ref, now: int)
    ensures ExecuteAction(cfg, [it], it, NotifyCiFailure(it.id, pr), WorkerRuns(), now) == Moved(it)
  {
  }

  /** The workspace of a reviewer comes and goes. */
  lemma ReviewerRuns(cfg: Config, it: Item, action: Action, now: int)
    requires (action.LaunchReview? || action.CleanReview?) && Calm(it, it.id)
    ensures var move := ExecuteAction(cfg, [it], it, action, WorkerRuns(), now);
      && move.Moved? && move.item == it.(review := move.item.review) && Calm(move.item, it.id)
      && move.item.review == it.review.(workspace := move.item.review.workspace)
  {
  }

  lemma CalmParkedOk(it: Item)
    requires !it.session.parked
    ensures ParkedOk(it)
  {
  }

  // ---- The beginning of every run ----------------------------------------------------------

  lemma Launching1(it: Item, now: int)
    requires (it.state.Queued? || it.state.Ready?) && !it.session.parked
    ensures var next := Launched1(it, now);
      && next.state.Launching? && next.id == it.id && !next.session.parked && next.pr == it.pr
      && next.feedback == it.feedback && next.session.workspace == it.session.workspace
      && next.review == it.review && next.ci.failCount == it.ci.failCount
  {
  }

  /** The item is added and launched. */
  lemma Opens(cfg: Config, w: WorkItem) returns (events: seq<Event>, it: Item)
    requires Roomy(cfg)
    ensures Tracks(cfg, events, it) && it.state.Launching? && Calm(it, w.id)
    ensures it.ci.failCount == 0 && it.review == NewItem(w, 0).review && it.session.workspace.NoWorkspace?
    ensures Due(cfg, events, Launch(w.id, it.pr.baseBranch))
  {
    hide TransitionItem, Tracks, Due, Launched1;
    var added := NewItem(w, 0);
    Adds(cfg, w);
    QueuedStays(cfg, added, 0);
    Launches1(cfg, [ItemAdded(w, 0)], added, NoSnapshot(), 0);
    Launching1(added, 0);
    events, it := [ItemAdded(w, 0)] + [PollOf(added, NoSnapshot(), 0)], Launched1(added, 0);
  }

  // ---- A parked session with a batch ------------------------------------------------------

  /** A worker starts and opens a pull request whose checks run. */
  lemma OpensPr(cfg: Config, w: WorkItem) returns (events: seq<Event>, it: Item)
    requires Roomy(cfg)
    ensures Tracks(cfg, events, it) && it.state.CiPending? && Calm(it, w.id) && it.ci.failCount == 0 && it.ci.pendingSince == At(0)
  {
    hide TransitionItem, Tracks, Due, ExecuteAction, WorkerRuns, ParkedOk;
    var e0, launching := Opens(cfg, w);
    var launch, alive := Launch(w.id, launching.pr.baseBranch), NoSnapshot().(workerAlive := Yes);
    WorkerGetsWorkspace(cfg, launching, launching.pr.baseBranch, 0);
    var started := ExecuteAction(cfg, [launching], launching, launch, WorkerRuns(), 0).item;
    CalmParkedOk(started);
    Executes1(cfg, e0, launching, launch, WorkerRuns(), 0);
    var e1 := e0 + [ExecuteEvent(launch, WorkerRuns(), 0)];
    WorkerStarts(cfg, started, alive, 0);
    Polls(cfg, e1, started, alive, 0);
    var e2, working := e1 + [PollOf(started, alive, 0)], TransitionItem(cfg, started, alive, 0).item;
    PrIsOpened(cfg, working, 0);
    Polls(cfg, e2, working, Saw(InProgress), 0);
    events, it := e2 + [PollOf(working, Saw(InProgress), 0)], TransitionItem(cfg, working, Saw(InProgress), 0).item;
  }

  /** A check fails, and the worker is told. */
  lemma FailsOnce(cfg: Config, events: seq<Event>, it: Item, now: int) returns (next: seq<Event>, last: Item)
    requires Tracks(cfg, events, it) && it.state.CiPending? && Calm(it, it.id)
    requires IsCiFailTrustworthy(it.ci.pendingSince, now, cfg.ciPendingFailGraceMs)
    ensures Tracks(cfg, next, last) && last.state.CiFailed? && Calm(last, it.id)
    ensures last.ci.failCount == it.ci.failCount + 1 && !last.ci.pendingSince.At?
  {
    hide TransitionItem, Tracks, Due, ExecuteAction, WorkerRuns, ParkedOk, IsCiFailTrustworthy;
    CiFails(cfg, it, now);
    Polls(cfg, events, it, Saw(Fail), now);
    last := TransitionItem(cfg, it, Saw(Fail), now).item;
    var told := NotifyCiFailure(it.id, it.pr.number);
    WorkerIsNotified(cfg, last, it.pr.number, now);
    CalmParkedOk(last);
    var failed := events + [PollOf(it, Saw(Fail), now)];
    assert told in TransitionItem(cfg, it, Saw(Fail), now).actions;
    Executes1(cfg, failed, last, told, WorkerRuns(), now);
    next := failed + [ExecuteEvent(told, WorkerRuns(), now)];
  }

  /** Checks are run again and fail again until the retries are used up. */
  lemma {:induction false} FailsUntil(cfg: Config, events: seq<Event>, it: Item, now: int) returns (next: seq<Event>, last: Item)
    requires Tracks(cfg, events, it) && it.state.CiFailed? && Calm(it, it.id) && !it.ci.pendingSince.At?
    ensures Tracks(cfg, next, last) && last.state.CiFailed? && Calm(last, it.id) && last.ci.failCount > cfg.maxCiRetries
    decreases cfg.maxCiRetries + 1 - it.ci.failCount
  {
    hide TransitionItem, Tracks;
    if it.ci.failCount > cfg.maxCiRetries {
      next, last := events, it;
    } else {
      CiRestarts(cfg, it, now);
      Polls(cfg, events, it, Saw(InProgress), now);
      var pending := TransitionItem(cfg, it, Saw(InProgress), now).item;
      var failed, again := FailsOnce(cfg, events + [PollOf(it, Saw(InProgress), now)], pending, now);
      next, last := FailsUntil(cfg, failed, again, now);
    }
  }

  /**
   * Main result: under any limits a lawful run of one item leads to the missing edge from stuck to
   * ready. The check fails once more than it may, the circuit breaker parks the live worker on a
   * stuck item, and a comment that falls due in the same poll throws.
   */
  lemma ParkedBatchRun(cfg: Config, w: WorkItem) returns (events: seq<Event>)
    requires Roomy(cfg)
    ensures EndsThrowing(cfg, events, Stuck, Ready)
  {
    hide TransitionItem, Tracks, ItemThrows, EndsThrowing;
    var later := Max(0, cfg.ciPendingFailGraceMs);
    var begun, it := OpensPr(cfg, w);
    var failed, first := FailsOnce(cfg, begun, it, later);
    var used, last := FailsUntil(cfg, failed, first, later);
    var c := Comment(1, later, false);
    var commented := Saw(Fail).(newComments := [c]);
    CommentBreaks(cfg, last, c, later + FEEDBACK_DEBOUNCE_MS);
    events := used + [PollOf(last, commented, later + FEEDBACK_DEBOUNCE_MS)];
    Crashes1(cfg, used, last, commented, later + FEEDBACK_DEBOUNCE_MS);
  }

  lemma CommentBreaks(cfg: Config, it: Item, c: Comment, now: int)
    requires it.state.CiFailed? && Calm(it, it.id) && it.ci.failCount > cfg.maxCiRetries
    requires !c.byAgent && c.createdAt + FEEDBACK_DEBOUNCE_MS == now
    ensures var snap := Saw(Fail).(newComments := [c]);
      ItemThrows(cfg, it, snap, now) && TransitionItem(cfg, it, snap, now) == Throw(Stuck, Ready)
  {
    hide IngestPendingFeedbackBatch, TransitionItem;
    var snap := Saw(Fail).(newComments := [c]);
    OneComment(it, c);
    SameComments(it, snap, NoSnapshot().(newComments := [c]));
    assert c in {c};
    OnlyFromStuck(cfg, it, snap, now);
  }

  /** A poll that throws tries the edge of its state. */
  lemma OnlyFromStuck(cfg: Config, it: Item, snap: Snapshot, now: int)
    requires ParkedOk(it) && ItemThrows(cfg, it, snap, now)
    ensures TransitionItem(cfg, it, snap, now)
         == if WakesSpuriously(it, snap) then Throw(Implementing, ReviewPending) else Throw(Stuck, Ready)
  {
    hide Body, Tail, Sound;
    BodyLeaves(cfg, it, snap, now);
    ThrowsExactly(cfg, it, snap, now);
    var body := Body(cfg, it, snap, now);
    if body.Step? && ParkedStuck(body.item) {
      StuckStays(body.item, snap, now);
    }
  }

  // ---- A spurious wake ---------------------------------------------------------------------

  /** A pull request is found for the item, its review asks for changes, and the worker is relaunched for them. */
  lemma ReviewRelaunches(cfg: Config, w: WorkItem) returns (events: seq<Event>, it: Item)
    requires Roomy(cfg) && !cfg.skipReview && cfg.maxReviewRounds > 0
    ensures Tracks(cfg, events, it) && it.state.Launching? && it.id == w.id && it.review.lastReviewed == Ref(7)
    ensures it.feedback.batch.NoBatch? && !it.session.parked && !it.pr.lastCommitTime.At? && !it.review.completed
    ensures Due(cfg, events, Launch(w.id, it.pr.baseBranch))
  {
    hide TransitionItem, Tracks, Due, ExecuteAction, WorkerRuns, ParkedOk, Launched1, LaunchAnswers;
    var e0, launching := Opens(cfg, w);
    var launch, found := Launch(w.id, launching.pr.baseBranch), LaunchAnswers(ExistingPr(1));
    PrIsFound(cfg, launching, launching.pr.baseBranch, 0);
    var pending := ExecuteAction(cfg, [launching], launching, launch, found, 0).item;
    CalmParkedOk(pending);
    Executes1(cfg, e0, launching, launch, found, 0);
    var reviewed, held := Reviewed(cfg, e0 + [ExecuteEvent(launch, found, 0)], pending);
    var same := NoSnapshot().(headSha := Ref(7));
    WorkerIsRelaunched(cfg, held, same, 0);
    Launches1(cfg, reviewed, held, same, 0);
    var ready := TransitionItem(cfg, held, same, 0).item;
    Launching1(ready, 0);
    events, it := reviewed + [PollOf(held, same, 0)], Launched1(ready, 0);
  }

  /** Checks pass, a reviewer runs and asks for changes. */
  lemma Reviewed(cfg: Config, events: seq<Event>, it: Item) returns (next: seq<Event>, held: Item)
    requires Tracks(cfg, events, it) && it.state.CiPending? && Calm(it, it.id) && it.session.workspace.NoWorkspace?
    requires it.review == NewItem(it.workItem, 0).review && !cfg.skipReview && cfg.maxReviewRounds > 0
    ensures Tracks(cfg, next, held) && held.state.ReviewPending? && Calm(held, it.id) && held.session.workspace.NoWorkspace?
    ensures held.review.lastReviewed == Ref(7)
  {
    hide TransitionItem, Tracks, Due, ExecuteAction, WorkerRuns, ParkedOk;
    var green := NoSnapshot().(ciStatus := Pass, headSha := Ref(7));
    ReviewStarts(cfg, it, green, 0);
    Polls(cfg, events, it, green, 0);
    var e1, reviewing := events + [PollOf(it, green, 0)], TransitionItem(cfg, it, green, 0).item;
    var review := LaunchReview(it.id, it.pr.number);
    ReviewerRuns(cfg, reviewing, review, 0);
    var watched := ExecuteAction(cfg, [reviewing], reviewing, review, WorkerRuns(), 0).item;
    CalmParkedOk(watched);
    Executes1(cfg, e1, reviewing, review, WorkerRuns(), 0);
    var e2, asks := e1 + [ExecuteEvent(review, WorkerRuns(), 0)], NoSnapshot().(reviewVerdict := RequestChanges, headSha := Ref(7));
    ReviewAsks(cfg, watched, asks, 0);
    Polls(cfg, e2, watched, asks, 0);
    var e3, answered := e2 + [PollOf(watched, asks, 0)], TransitionItem(cfg, watched, asks, 0).item;
    var clean := CleanReview(it.id);
    ReviewerRuns(cfg, answered, clean, 0);
    held := ExecuteAction(cfg, [answered], answered, clean, WorkerRuns(), 0).item;
    CalmParkedOk(held);
    Executes1(cfg, e3, answered, clean, WorkerRuns(), 0);
    next := e3 + [ExecuteEvent(clean, WorkerRuns(), 0)];
  }

  /**
   * Main result: a lawful run of one item leads to the missing edge from implementing to
   * review-pending. A review asks for changes, the worker is relaunched for them and reports that
   * there is nothing to change.
   */
  lemma SpuriousWakeRun(cfg: Config, w: WorkItem) returns (events: seq<Event>)
    requires Roomy(cfg) && !cfg.skipReview && cfg.maxReviewRounds > 0
    ensures EndsThrowing(cfg, events, Implementing, ReviewPending)
  {
    hide TransitionItem, Tracks, Due, ExecuteAction, WorkerRuns, ItemThrows, EndsThrowing, ParkedOk;
    var e0, launching := ReviewRelaunches(cfg, w);
    var launch, alive := Launch(w.id, launching.pr.baseBranch), NoSnapshot().(workerAlive := Yes);
    WorkerGetsWorkspace(cfg, launching, launching.pr.baseBranch, 0);
    var started := ExecuteAction(cfg, [launching], launching, launch, WorkerRuns(), 0).item;
    CalmParkedOk(started);
    Executes1(cfg, e0, launching, launch, WorkerRuns(), 0);
    var e1 := e0 + [ExecuteEvent(launch, WorkerRuns(), 0)];
    WorkerStarts(cfg, started, alive, 0);
    Polls(cfg, e1, started, alive, 0);
    var e2, working := e1 + [PollOf(started, alive, 0)], TransitionItem(cfg, started, alive, 0).item;
    var signal := NoSnapshot().(prNumber := Ref(1), prState := Open, noNewInfo := true, headSha := Ref(7));
    SignalThrows(cfg, working, signal);
    Crashes1(cfg, e2, working, signal, 0);
    events := e2 + [PollOf(working, signal, 0)];
  }

  lemma SignalThrows(cfg: Config, it: Item, snap: Snapshot)
    requires it.state.Implementing? && it.review.lastReviewed == Ref(7) && !it.session.parked
    requires snap == NoSnapshot().(prNumber := Ref(1), prState := Open, noNewInfo := true, headSha := Ref(7))
    ensures ItemThrows(cfg, it, snap, 0) && TransitionItem(cfg, it, snap, 0) == Throw(Implementing, ReviewPending)
  {
    hide TransitionItem;
    OnlyFromStuck(cfg, it, snap, 0);
  }
}
