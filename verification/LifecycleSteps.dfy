/**
 * One item, one poll: exactly when `transitionItem` throws, and the invariants that bound what
 * an item may cost over its life.
 */
module LifecycleSteps {
  import opened OrchestratorTypes
  import opened OrchestratorGuards
  import opened Lifecycle
  import opened LifecycleFacts

  /** What happened to an item so far: launches, repair pull requests adopted, approve verdicts read. */
  datatype History = History(reviews: int, fixers: int, resets: int, approved: bool)

  /** The polls in which a repair pull request restarts the review counters. */
  predicate Resets(it: Item, snap: Snapshot) {
    it.state.FixingForward? && RepairPrVisible(snap)
  }

  function Tallied(h: History, t: Tally): History {
    h.(reviews := h.reviews + t.reviews, fixers := h.fixers + t.fixers)
  }

  /** The history after a poll saw `snap` of item `it` and answered with `actions`. */
  function Advance(cfg: Config, h: History, it: Item, snap: Snapshot, actions: seq<Action>): History {
    var counted := Tallied(h, Count(cfg, it.id, actions));
    counted.(resets := if Resets(it, snap) then h.resets + 1 else h.resets,
             approved := h.approved || (ApproveSeen(it, snap) && !ExternallyMerged(it, snap)))
  }

  /** Forward-fixer launches one item may cost. */
  function MaxFixers(cfg: Config): int {
    if cfg.maxFixForwardRetries == 0 then 0 else cfg.maxFixForwardRetries - 1
  }

  /** What holds of every tracked item between polls, whatever GitHub and the workers did. */
  predicate Inv(cfg: Config, it: Item, h: History) {
    && ParkedOk(it)
    && !Flagged(it)
    && it.retryCount <= cfg.maxRetries
    && it.review.round <= cfg.maxReviewRounds
    && (it.state.Merging? ==> it.review.completed)
    && (!cfg.skipReview && Vouched(it) ==> h.approved)
    && 0 <= h.reviews <= cfg.maxReviewRounds * h.resets + it.review.round
    && 0 <= h.resets
    && h.resets + (if it.state.FixingForward? then 1 else 0) <= h.fixers
    && h.fixers + (if it.state.FixForwardFailed? then 1 else 0) <= it.repair.failCount
    && h.fixers <= MaxFixers(cfg)
    && (it.mergeFailCount > 0 && it.mergeFailCount >= cfg.maxMergeRetries ==> it.state.Stuck?)
  }

  lemma KeepsInv(cfg: Config, it: Item, h: History, step: Step)
    requires Inv(cfg, it, h) && Keeps(cfg, it, step)
    ensures Inv(cfg, step.item, Tallied(h, Count(cfg, it.id, step.actions)))
  {
    hide Count;
    CountNatural(cfg, it.id, step.actions);
  }

  /**
   * Every merge is for the item itself, with the right admin flag, and nothing a human said is
   * pending; a slot is only kept, or taken by a repair pull request; terminal items stay terminal.
   */
  predicate Sound(cfg: Config, it: Item, step: Step)
    requires step.Step?
  {
    var t := Count(cfg, it.id, step.actions);
    && step.item.id == it.id
    && t.foreign == 0
    && (t.merges > 0 ==> t.merges == 1 && step.item.state.Merging? && FeedbackSettled(step.item))
    && (Active(step.item.state) ==> Active(it.state) || it.state.FixingForward?)
    && (Terminal(it.state) ==> step.item.state == it.state)
    && KeepsPayload(cfg, it, step.item)
  }

  /** A step that leaves the item within its bounds, with everything it did entered in the history. */
  predicate Accounted(cfg: Config, it: Item, h: History, snap: Snapshot, step: Step) {
    && step.Step?
    && Inv(cfg, step.item, Advance(cfg, h, it, snap, step.actions))
    && Sound(cfg, it, step)
  }

  // ---- The post-merge handlers ------------------------------------------------------------

  lemma MergedInv(cfg: Config, it: Item, h: History, snap: Snapshot, now: int)
    requires Inv(cfg, it, h) && it.state.Merged?
    ensures var step := HandleMerged(cfg, it, snap, now);
      && Accounted(cfg, it, h, snap, step) && !ParkedStuck(step.item)
      && step.item.repair.failCount == it.repair.failCount + (if step.item.state.FixForwardFailed? then 1 else 0)
  {
    hide Count, HandleMerged, Accounted;
    MergedMoves(cfg, it, snap, now);
    PastMergeInv(cfg, it, h, snap, HandleMerged(cfg, it, snap, now));
  }

  /** The item left a merged state for one behind it, and counted a failure if it failed. */
  predicate PastMerge(it: Item, next: Item) {
    && next == it.(state := next.state, lastTransition := next.lastTransition, session := next.session, ci := next.ci,
                   rebase := next.rebase, repair := it.repair.(failCount := next.repair.failCount))
    && !next.session.parked && !Active(next.state) && !next.state.FixingForward? && !next.state.Stuck?
    && next.repair.failCount == it.repair.failCount + (if next.state.FixForwardFailed? then 1 else 0)
  }

  lemma MergedMoves(cfg: Config, it: Item, snap: Snapshot, now: int)
    requires it.state.Merged? && !it.session.parked
    ensures var step := HandleMerged(cfg, it, snap, now); step.Step? && PastMerge(it, step.item) && Quiet(step.actions)
  {
  }

  lemma PastMergeInv(cfg: Config, it: Item, h: History, snap: Snapshot, step: Step)
    requires Inv(cfg, it, h) && (it.state.Merged? || it.state.ForwardFixPending?)
    requires step.Step? && PastMerge(it, step.item) && Quiet(step.actions)
    ensures Accounted(cfg, it, h, snap, step) && !ParkedStuck(step.item)
  {
    hide Count;
    CountQuiet(cfg, it.id, step.actions);
  }

  lemma ForwardFixPendingInv(cfg: Config, it: Item, h: History, snap: Snapshot, now: int)
    requires Inv(cfg, it, h) && it.state.ForwardFixPending?
    ensures var step := HandleForwardFixPending(it, snap, now);
      Accounted(cfg, it, h, snap, step) && !ParkedStuck(step.item)
  {
    hide Count, HandleForwardFixPending, Accounted;
    VerificationMoves(it, snap, now);
    PastMergeInv(cfg, it, h, snap, HandleForwardFixPending(it, snap, now));
  }

  lemma VerificationMoves(it: Item, snap: Snapshot, now: int)
    requires it.state.ForwardFixPending? && !it.session.parked
    ensures var step := HandleForwardFixPending(it, snap, now); step.Step? && PastMerge(it, step.item) && Quiet(step.actions)
  {
  }

  lemma FixForwardFailedInv(cfg: Config, it: Item, h: History, snap: Snapshot, now: int)
    requires Inv(cfg, it, h) && it.state.FixForwardFailed?
    ensures var step := HandleFixForwardFailed(cfg, it, snap, now);
      Accounted(cfg, it, h, snap, step) && !ParkedStuck(step.item)
  {
    hide Count, HandleFixForwardFailed, Accounted;
    FailureMoves(cfg, it, snap, now);
    var step := HandleFixForwardFailed(cfg, it, snap, now);
    if step.item.state.FixingForward? {
      FixerLaunchInv(cfg, it, h, snap, step);
    } else {
      FailureRestsInv(cfg, it, h, snap, step);
    }
  }

  /** The item waits on, is done, gets stuck, or gets a fixer while retries are left. */
  predicate PastFailure(cfg: Config, it: Item, step: Step) {
    && step.Step?
    && step.item == it.(state := step.item.state, lastTransition := step.item.lastTransition, session := step.item.session,
                        ci := step.item.ci, rebase := step.item.rebase)
    && !step.item.session.parked
    && if step.item.state.FixingForward? then step.actions == [LaunchForwardFixer(it.id)] && it.repair.failCount < cfg.maxFixForwardRetries
       else step.actions == [] && (step.item.state.FixForwardFailed? || Terminal(step.item.state))
  }

  lemma FailureMoves(cfg: Config, it: Item, snap: Snapshot, now: int)
    requires it.state.FixForwardFailed? && !it.session.parked
    ensures PastFailure(cfg, it, HandleFixForwardFailed(cfg, it, snap, now))
  {
  }

  lemma FixerLaunchInv(cfg: Config, it: Item, h: History, snap: Snapshot, step: Step)
    requires Inv(cfg, it, h) && it.state.FixForwardFailed? && PastFailure(cfg, it, step) && step.item.state.FixingForward?
    ensures Accounted(cfg, it, h, snap, step) && !ParkedStuck(step.item)
  {
    hide Count;
    CountOne(cfg, it.id, LaunchForwardFixer(it.id));
  }

  lemma FailureRestsInv(cfg: Config, it: Item, h: History, snap: Snapshot, step: Step)
    requires Inv(cfg, it, h) && it.state.FixForwardFailed? && PastFailure(cfg, it, step) && !step.item.state.FixingForward?
    ensures Accounted(cfg, it, h, snap, step) && !ParkedStuck(step.item)
  {
    hide Count;
    CountQuiet(cfg, it.id, step.actions);
  }

  lemma FixingForwardInv(cfg: Config, it: Item, h: History, snap: Snapshot, now: int)
    requires Inv(cfg, it, h) && it.state.FixingForward?
    ensures var step := HandleFixingForward(cfg, it, snap, now);
      Accounted(cfg, it, h, snap, step) && !ParkedStuck(step.item)
  {
    hide Accounted, Inv, HandleFixingForward;
    if RepairPrVisible(snap) && !snap.prState.PrMerged? {
      AdoptionInv(cfg, it, h, snap, now);
    } else {
      FixingEndsInv(cfg, it, h, snap, now);
    }
  }

  /** An open repair pull request is adopted, and its CI processed in the same poll. */
  lemma AdoptionInv(cfg: Config, it: Item, h: History, snap: Snapshot, now: int)
    requires Inv(cfg, it, h) && it.state.FixingForward? && RepairPrVisible(snap) && !snap.prState.PrMerged?
    ensures var step := HandleFixingForward(cfg, it, snap, now);
      Accounted(cfg, it, h, snap, step) && !ParkedStuck(step.item)
  {
    hide Count, HandleCiPending;
    var step := HandleFixingForward(cfg, it, snap, now);
    var pending := Enter(AdoptRepairPr(it, snap.prNumber.n), CiPending, now);
    HandleCiPendingFacts(cfg, pending, snap, now);
    CountNatural(cfg, it.id, step.actions);
    AdoptBudget(cfg, it, h, Count(cfg, it.id, step.actions).reviews);
  }

  /** The fixer works on, ends, or its pull request merged. */
  lemma FixingEndsInv(cfg: Config, it: Item, h: History, snap: Snapshot, now: int)
    requires Inv(cfg, it, h) && it.state.FixingForward? && !(RepairPrVisible(snap) && !snap.prState.PrMerged?)
    ensures var step := HandleFixingForward(cfg, it, snap, now);
      Accounted(cfg, it, h, snap, step) && !ParkedStuck(step.item)
  {
    hide Accounted, HandleFixingForward;
    FixingMoves(cfg, it, snap, now);
    FixingEnded(cfg, it, h, snap, HandleFixingForward(cfg, it, snap, now));
  }

  /** The item is what it was, or what adopting the repair pull request makes of it, in another state. */
  predicate PastFixing(it: Item, snap: Snapshot, step: Step) {
    && step.Step? && Quiet(step.actions)
    && var from := if RepairPrVisible(snap) then AdoptRepairPr(it, snap.prNumber.n) else it;
    && step.item == from.(state := step.item.state, lastTransition := step.item.lastTransition, session := step.item.session,
                          ci := step.item.ci, rebase := step.item.rebase)
    && !step.item.session.parked
    && (step.item.state.Merged? || Terminal(step.item.state) || (step.item.state.FixingForward? && !RepairPrVisible(snap)))
  }

  lemma FixingMoves(cfg: Config, it: Item, snap: Snapshot, now: int)
    requires it.state.FixingForward? && !it.session.parked && !(RepairPrVisible(snap) && !snap.prState.PrMerged?)
    ensures PastFixing(it, snap, HandleFixingForward(cfg, it, snap, now))
  {
    hide HandleCiPending;
  }

  lemma FixingEnded(cfg: Config, it: Item, h: History, snap: Snapshot, step: Step)
    requires Inv(cfg, it, h) && it.state.FixingForward? && PastFixing(it, snap, step)
    ensures Accounted(cfg, it, h, snap, step) && !ParkedStuck(step.item)
  {
    hide Count;
    CountQuiet(cfg, it.id, step.actions);
    AdoptBudget(cfg, it, h, 0);
  }

  /** A repair pull request trades the used rounds for a fresh set. */
  lemma AdoptBudget(cfg: Config, it: Item, h: History, launched: int)
    requires Inv(cfg, it, h)
    ensures h.reviews + launched <= cfg.maxReviewRounds * (h.resets + 1) + launched
  {
    calc {
      h.reviews;
      <= cfg.maxReviewRounds * h.resets + it.review.round;
      <= cfg.maxReviewRounds * h.resets + cfg.maxReviewRounds;
      cfg.maxReviewRounds * (h.resets + 1);
    }
  }

  // ---- One item, one poll -----------------------------------------------------------------

  /** What the item a handler sees shares with the item before the poll. */
  lemma SeenStands(it: Item, snap: Snapshot, now: int)
    ensures var seen := Seen(it, snap, now);
      && seen == it.(rebase := seen.rebase, feedback := seen.feedback, repair := seen.repair)
      && seen.repair.failCount == it.repair.failCount
      && seen.feedback == IngestPendingFeedbackBatch(it, snap).feedback
  {
  }

  lemma SeenFacts(cfg: Config, it: Item, h: History, snap: Snapshot, now: int)
    ensures var seen := Seen(it, snap, now);
      && seen == it.(rebase := seen.rebase, feedback := seen.feedback, repair := seen.repair)
      && seen.repair.failCount == it.repair.failCount
      && seen.feedback == IngestPendingFeedbackBatch(it, snap).feedback
      && (Inv(cfg, it, h) <==> Inv(cfg, seen, h))
  {
    hide Seen, IngestPendingFeedbackBatch;
    SeenStands(it, snap, now);
  }

  lemma FromSeen(cfg: Config, it: Item, h: History, snap: Snapshot, now: int, step: Step)
    requires Accounted(cfg, Seen(it, snap, now), h, snap, step)
    ensures Accounted(cfg, it, h, snap, step)
  {
    hide Count, Inv, Seen;
    SeenFacts(cfg, it, h, snap, now);
  }

  lemma LiveBody(cfg: Config, it: Item, h: History, snap: Snapshot, now: int)
    requires Inv(cfg, it, h) && Active(it.state) && !ExternallyMerged(it, snap)
    requires !WakesSpuriously(it, snap) && !BreaksParked(cfg, it, snap)
    ensures var step := Body(cfg, it, snap, now); Accounted(cfg, it, h, snap, step) && !ParkedStuck(step.item)
  {
    hide Count, Seen, HandleLaunching, HandleImplementing, HandleCiPending, HandleCiPassed, HandleCiFailed,
         HandleRebasing, HandleReviewing, HandleReviewPending, HandleMerging;
    SeenFacts(cfg, it, h, snap, now);
    var seen := Seen(it, snap, now);
    var step := Handle(cfg, seen, snap, now);
    var from, past := seen, h;
    match it.state {
    case Launching => HandleLaunchingFacts(cfg, seen, snap, now);
    case Implementing => HandleImplementingFacts(cfg, seen, snap, now);
    case CiPending => HandleCiPendingFacts(cfg, seen, snap, now);
    case CiPassed => HandleCiPassedFacts(cfg, seen, snap, now);
    case CiFailed => HandleCiFailedFacts(cfg, seen, snap, now);
    case Rebasing => HandleRebasingFacts(cfg, seen, snap, now);
    case Reviewing =>
      HandleReviewingFacts(cfg, seen, snap, now);
      if ApproveSeen(seen, snap) {
        from, past := seen.(review := seen.review.(completed := true)), h.(approved := true);
      }
    case ReviewPending => HandleReviewPendingFacts(cfg, seen, snap, now);
    case Merging => HandleMergingFacts(cfg, seen, snap, now);
    }
    KeepsInv(cfg, from, past, step);
  }

  lemma ExternalMergeInv(cfg: Config, it: Item, h: History, snap: Snapshot, now: int)
    requires Inv(cfg, it, h) && ExternallyMerged(it, snap)
    ensures var step := Body(cfg, it, snap, now); Accounted(cfg, it, h, snap, step) && !ParkedStuck(step.item)
  {
    hide Count, Inv, Sound, Quiet;
    ExternalMergeStep(it, snap, now);
    var step := Body(cfg, it, snap, now);
    CountQuiet(cfg, it.id, step.actions);
    ExternalMergeItem(cfg, it, h, step.item);
    ExternalMergeSound(cfg, it, step);
    assert Advance(cfg, h, it, snap, step.actions) == h;
  }

  /** Only bookkeeping changes besides the state. */
  predicate MergedAway(it: Item, next: Item) {
    && next == it.(state := Merged, lastTransition := next.lastTransition, session := next.session, pr := next.pr, ci := next.ci,
                   rebase := next.rebase, repair := next.repair)
    && !next.session.parked && next.repair.failCount == it.repair.failCount
  }

  lemma ExternalMergeStep(it: Item, snap: Snapshot, now: int)
    requires DetectsExternalMerge(it.state)
    ensures var step := InterceptExternalMerge(RecordMergeCommit(it, snap), snap, now);
      step.Step? && MergedAway(it, step.item) && Quiet(step.actions)
  {
  }

  lemma ExternalMergeItem(cfg: Config, it: Item, h: History, next: Item)
    requires Inv(cfg, it, h) && MergedAway(it, next) && DetectsExternalMerge(it.state)
    ensures Inv(cfg, next, h)
  {
  }

  lemma ExternalMergeSound(cfg: Config, it: Item, step: Step)
    requires step.Step? && MergedAway(it, step.item) && Count(cfg, it.id, step.actions) == Tally(0, 0, 0, 0)
    requires DetectsExternalMerge(it.state)
    ensures Sound(cfg, it, step)
  {
    hide Count;
  }

  /** What a post-merge handler accounts for from the item it sees. */
  lemma PostMergeHandle(cfg: Config, seen: Item, h: History, snap: Snapshot, now: int)
    requires Inv(cfg, seen, h)
    requires seen.state.Merged? || seen.state.ForwardFixPending? || Repairing(seen.state)
    ensures var step := Handle(cfg, seen, snap, now); Accounted(cfg, seen, h, snap, step) && !ParkedStuck(step.item)
  {
    hide Inv, Accounted, HandleMerged, HandleForwardFixPending, HandleFixForwardFailed, HandleFixingForward;
    match seen.state {
      case Merged => MergedInv(cfg, seen, h, snap, now);
      case ForwardFixPending => ForwardFixPendingInv(cfg, seen, h, snap, now);
      case FixForwardFailed => FixForwardFailedInv(cfg, seen, h, snap, now);
      case FixingForward => FixingForwardInv(cfg, seen, h, snap, now);
    }
  }

  lemma PostMergeBody(cfg: Config, it: Item, h: History, snap: Snapshot, now: int)
    requires Inv(cfg, it, h)
    requires it.state.Merged? || it.state.ForwardFixPending? || Repairing(it.state)
    ensures var step := Body(cfg, it, snap, now); Accounted(cfg, it, h, snap, step) && !ParkedStuck(step.item)
  {
    hide Inv, Accounted, Seen, Handle;
    SeenFacts(cfg, it, h, snap, now);
    var seen := Seen(it, snap, now);
    PostMergeHandle(cfg, seen, h, snap, now);
    FromSeen(cfg, it, h, snap, now, Handle(cfg, seen, snap, now));
  }

  lemma IdleBody(cfg: Config, it: Item, h: History, snap: Snapshot, now: int)
    requires Inv(cfg, it, h)
    requires it.state.Queued? || it.state.Ready? || Terminal(it.state)
    ensures var step := Body(cfg, it, snap, now);
      && Accounted(cfg, it, h, snap, step)
      && step == Step(Seen(it, snap, now), [])
  {
    hide Inv, Accounted, Seen, Handle;
    SeenFacts(cfg, it, h, snap, now);
    var seen := Seen(it, snap, now);
    IdleHandle(cfg, seen, h, snap, now);
    FromSeen(cfg, it, h, snap, now, Step(seen, []));
  }

  lemma IdleHandle(cfg: Config, seen: Item, h: History, snap: Snapshot, now: int)
    requires Inv(cfg, seen, h)
    requires seen.state.Queued? || seen.state.Ready? || Terminal(seen.state)
    ensures Handle(cfg, seen, snap, now) == Step(seen, []) && Accounted(cfg, seen, h, snap, Step(seen, []))
  {
  }

  /** The circuit breaker parks a live worker on a stuck item. */
  lemma BreakerBody(cfg: Config, it: Item, h: History, snap: Snapshot, now: int)
    requires Inv(cfg, it, h) && !ExternallyMerged(it, snap) && BreaksParked(cfg, it, snap)
    ensures var step := Body(cfg, it, snap, now);
      && Accounted(cfg, it, h, snap, step) && ParkedStuck(step.item)
      && step.item.feedback == IngestPendingFeedbackBatch(it, snap).feedback
  {
    hide Inv, Accounted, Seen, Handle, HandleCiFailed;
    SeenFacts(cfg, it, h, snap, now);
    var seen := Seen(it, snap, now);
    BreakerHandle(cfg, seen, h, snap, now);
    FromSeen(cfg, it, h, snap, now, Handle(cfg, seen, snap, now));
  }

  lemma BreakerHandle(cfg: Config, seen: Item, h: History, snap: Snapshot, now: int)
    requires Inv(cfg, seen, h) && BreaksParked(cfg, seen, snap)
    ensures var step := Handle(cfg, seen, snap, now);
      && Accounted(cfg, seen, h, snap, step) && ParkedStuck(step.item) && step.item.feedback == seen.feedback
  {
    hide HandleCiFailed;
    HandleCiFailedFacts(cfg, seen, snap, now);
  }

  // ---- When a poll throws -----------------------------------------------------------------

  /**
   * The inputs on which transitionItem runs off the table: a "no new info" signal from an
   * implementing worker, or a due feedback batch for a parked worker of a stuck item.
   */
  predicate ItemThrows(cfg: Config, it: Item, snap: Snapshot, now: int) {
    || WakesSpuriously(it, snap)
    || (&& !ExternallyMerged(it, snap)
        && (ParkedStuck(it) || BreaksParked(cfg, it, snap))
        && BatchDue(IngestPendingFeedbackBatch(it, snap), now))
  }

  lemma TailInv(cfg: Config, it: Item, h: History, snap: Snapshot, now: int)
    requires Inv(cfg, it, h) && !(ParkedStuck(it) && BatchDue(it, now))
    ensures var step := Tail(it, snap, now);
      && Keeps(cfg, it, step)
      && Inv(cfg, step.item, Tallied(h, Count(cfg, it.id, step.actions)))
      && (!HasBatch(it) ==> step == Step(it, []))
  {
    hide Count, ResolvePendingFeedbackBatch;
    ResolveFacts(cfg, it, snap, now);
    QuietKeeps(cfg, it, Step(it, []));
    KeepsInv(cfg, it, h, Tail(it, snap, now));
  }

  lemma StuckStays(it: Item, snap: Snapshot, now: int)
    requires it.state.Stuck?
    ensures var step := Tail(it, snap, now);
      if it.session.parked && BatchDue(it, now) then step == Throw(Stuck, Ready) else step.Step? && step.item.state.Stuck?
  {
  }

  /** What the handler leaves for the last step of transitionItem. */
  predicate Leaves(cfg: Config, it: Item, snap: Snapshot, step: Step) {
    if WakesSpuriously(it, snap) then step == Throw(Implementing, ReviewPending)
    else
      && step.Step? && ParkedOk(step.item) && Sound(cfg, it, step)
      && (ParkedStuck(step.item) <==> !ExternallyMerged(it, snap) && (ParkedStuck(it) || BreaksParked(cfg, it, snap)))
      && (ParkedStuck(step.item) ==> step.item.feedback == IngestPendingFeedbackBatch(it, snap).feedback)
  }

  lemma ActiveLeaves(cfg: Config, it: Item, snap: Snapshot, now: int)
    requires ParkedOk(it) && Active(it.state) && !ExternallyMerged(it, snap)
    ensures Leaves(cfg, it, snap, Body(cfg, it, snap, now))
  {
    hide Count, Seen, HandleLaunching, HandleImplementing, HandleCiPending, HandleCiPassed, HandleCiFailed,
         HandleRebasing, HandleReviewing, HandleReviewPending, HandleMerging;
    hide Keeps, Leaves, Enter;
    SeenStands(it, snap, now);
    var seen := Seen(it, snap, now);
    var step := Handle(cfg, seen, snap, now);
    var from := seen;
    match it.state {
      case Launching => HandleLaunchingFacts(cfg, seen, snap, now);
      case Implementing => HandleImplementingFacts(cfg, seen, snap, now);
      case CiPending => HandleCiPendingFacts(cfg, seen, snap, now);
      case CiPassed => HandleCiPassedFacts(cfg, seen, snap, now);
      case CiFailed => HandleCiFailedFacts(cfg, seen, snap, now);
      case Rebasing => HandleRebasingFacts(cfg, seen, snap, now);
      case Reviewing =>
        HandleReviewingFacts(cfg, seen, snap, now);
        from := if ApproveSeen(seen, snap) then seen.(review := seen.review.(completed := true)) else seen;
      case ReviewPending => HandleReviewPendingFacts(cfg, seen, snap, now);
      case Merging => HandleMergingFacts(cfg, seen, snap, now);
    }
    if WakesSpuriously(it, snap) {
      WakeLeaves(cfg, it, snap);
    } else if BreaksParked(cfg, it, snap) {
      BreakerLeaves(cfg, it, seen, snap, now);
    } else {
      KeptLeaves(cfg, it, from, snap, step);
    }
  }

  lemma WakeLeaves(cfg: Config, it: Item, snap: Snapshot)
    requires WakesSpuriously(it, snap)
    ensures Leaves(cfg, it, snap, Throw(Implementing, ReviewPending))
  {
  }

  lemma BreakerLeaves(cfg: Config, it: Item, seen: Item, snap: Snapshot, now: int)
    requires ParkedOk(it) && BreaksParked(cfg, it, snap) && !ExternallyMerged(it, snap)
    requires seen == it.(rebase := seen.rebase, feedback := IngestPendingFeedbackBatch(it, snap).feedback, repair := seen.repair)
    ensures var stuck := Enter(seen, Stuck, now);
      Leaves(cfg, it, snap, Step(stuck.(session := stuck.session.(parked := true)), []))
  {
    hide Count;
    CountQuiet(cfg, it.id, []);
  }

  /** A handler that keeps what it should leaves nothing that the last step could trip over. */
  lemma KeptLeaves(cfg: Config, it: Item, from: Item, snap: Snapshot, step: Step)
    requires ParkedOk(it) && Active(it.state) && !WakesSpuriously(it, snap) && !BreaksParked(cfg, it, snap)
    requires from.id == it.id && from.state == it.state && from.workItem == it.workItem && Keeps(cfg, from, step)
    ensures Leaves(cfg, it, snap, step)
  {
    hide Count;
  }

  lemma BodyLeaves(cfg: Config, it: Item, snap: Snapshot, now: int)
    requires ParkedOk(it)
    ensures Leaves(cfg, it, snap, Body(cfg, it, snap, now))
  {
    hide Count, Seen, HandleMerged, HandleForwardFixPending, HandleFixForwardFailed, HandleFixingForward, InterceptExternalMerge;
    if ExternallyMerged(it, snap) {
      ExternalMergeStep(it, snap, now);
      CountQuiet(cfg, it.id, Body(cfg, it, snap, now).actions);
    } else if Active(it.state) {
      ActiveLeaves(cfg, it, snap, now);
    } else {
      SeenStands(it, snap, now);
      var seen := Seen(it, snap, now);
      CountQuiet(cfg, it.id, []);
      match it.state {
        case Merged => PostMergeSound(cfg, seen, snap, now);
        case ForwardFixPending => PostMergeSound(cfg, seen, snap, now);
        case FixForwardFailed => FixForwardFailedSound(cfg, seen, snap, now);
        case FixingForward => FixingForwardSound(cfg, seen, snap, now);
        case _ =>
      }
    }
  }

  lemma PostMergeSound(cfg: Config, it: Item, snap: Snapshot, now: int)
    requires ParkedOk(it) && (it.state.Merged? || it.state.ForwardFixPending?)
    ensures var step := Handle(cfg, it, snap, now);
      step.Step? && ParkedOk(step.item) && !ParkedStuck(step.item) && Sound(cfg, it, step)
  {
    hide Count, HandleMerged, HandleForwardFixPending;
    if it.state.Merged? {
      MergedMoves(cfg, it, snap, now);
    } else {
      VerificationMoves(it, snap, now);
    }
    CountQuiet(cfg, it.id, Handle(cfg, it, snap, now).actions);
  }

  lemma FixForwardFailedSound(cfg: Config, it: Item, snap: Snapshot, now: int)
    requires ParkedOk(it) && it.state.FixForwardFailed?
    ensures var step := HandleFixForwardFailed(cfg, it, snap, now);
      step.Step? && ParkedOk(step.item) && !ParkedStuck(step.item) && Sound(cfg, it, step)
  {
    hide Count;
    CountOne(cfg, it.id, LaunchForwardFixer(it.id));
    CountQuiet(cfg, it.id, []);
  }

  lemma FixingForwardSound(cfg: Config, it: Item, snap: Snapshot, now: int)
    requires it.state.FixingForward? && ParkedOk(it)
    ensures var step := HandleFixingForward(cfg, it, snap, now);
      step.Step? && ParkedOk(step.item) && !ParkedStuck(step.item) && Sound(cfg, it, step)
  {
    hide Count, HandleCiPending;
    var step := HandleFixingForward(cfg, it, snap, now);
    if RepairPrVisible(snap) && !snap.prState.PrMerged? {
      HandleCiPendingFacts(cfg, Enter(AdoptRepairPr(it, snap.prNumber.n), CiPending, now), snap, now);
    } else {
      CountQuiet(cfg, it.id, step.actions);
    }
  }

  /** The last step of transitionItem adds no second merge. */
  lemma TailSettles(cfg: Config, it: Item, body: Step, snap: Snapshot, now: int)
    requires body.Step? && ParkedOk(body.item) && Sound(cfg, it, body)
    requires !(ParkedStuck(body.item) && BatchDue(body.item, now))
    ensures var step := Tail(body.item, snap, now).After(body.actions);
      step.Step? && ParkedOk(step.item) && Sound(cfg, it, step)
  {
    hide Count, ResolvePendingFeedbackBatch;
    var tail := Tail(body.item, snap, now);
    ResolveFacts(cfg, body.item, snap, now);
    CountQuiet(cfg, it.id, []);
    CountNatural(cfg, it.id, body.actions);
    CountConcat(cfg, it.id, body.actions, tail.actions);
  }

  /** Main result: the poll of an item throws on exactly these inputs, and on these edges. */
  lemma ThrowsExactly(cfg: Config, it: Item, snap: Snapshot, now: int)
    requires ParkedOk(it)
    ensures var step := TransitionItem(cfg, it, snap, now);
      && (step.Throw? <==> ItemThrows(cfg, it, snap, now))
      && (step.Throw? ==> step == Throw(Implementing, ReviewPending) || step == Throw(Stuck, Ready))
      && (!step.Throw? ==> step.Step? && ParkedOk(step.item) && Sound(cfg, it, step))
  {
    hide Count, Body, Tail, Sound;
    BodyLeaves(cfg, it, snap, now);
    var body := Body(cfg, it, snap, now);
    if body.Step? && !ExternallyMerged(it, snap) {
      if ParkedStuck(body.item) {
        StuckStays(body.item, snap, now);
      }
      if !(ParkedStuck(body.item) && BatchDue(body.item, now)) {
        TailSettles(cfg, it, body, snap, now);
      }
    }
  }

  lemma BodyAccounted(cfg: Config, it: Item, h: History, snap: Snapshot, now: int)
    requires Inv(cfg, it, h) && !ItemThrows(cfg, it, snap, now)
    ensures var step := Body(cfg, it, snap, now);
      && Accounted(cfg, it, h, snap, step)
      && (!ExternallyMerged(it, snap) ==> !(ParkedStuck(step.item) && BatchDue(step.item, now)))
  {
    hide Count, Body;
    BodyLeaves(cfg, it, snap, now);
    if ExternallyMerged(it, snap) {
      ExternalMergeInv(cfg, it, h, snap, now);
    } else if BreaksParked(cfg, it, snap) {
      BreakerBody(cfg, it, h, snap, now);
    } else if Active(it.state) {
      LiveBody(cfg, it, h, snap, now);
    } else if it.state.Merged? || it.state.ForwardFixPending? || Repairing(it.state) {
      PostMergeBody(cfg, it, h, snap, now);
    } else {
      IdleBody(cfg, it, h, snap, now);
    }
  }

  /** The last step of transitionItem adds to what the handler did. */
  lemma JoinTail(cfg: Config, it: Item, h: History, snap: Snapshot, body: Step, tail: Step)
    requires Accounted(cfg, it, h, snap, body) && Keeps(cfg, body.item, tail)
    requires !HasBatch(body.item) ==> tail == Step(body.item, [])
    requires Inv(cfg, tail.item, Tallied(Advance(cfg, h, it, snap, body.actions), Count(cfg, it.id, tail.actions)))
    ensures Accounted(cfg, it, h, snap, tail.After(body.actions))
  {
    hide Count, Inv;
    CountNatural(cfg, it.id, body.actions);
    CountNatural(cfg, it.id, tail.actions);
    CountQuiet(cfg, it.id, []);
    CountConcat(cfg, it.id, body.actions, tail.actions);
    assert Advance(cfg, h, it, snap, body.actions + tail.actions)
        == Tallied(Advance(cfg, h, it, snap, body.actions), Count(cfg, it.id, tail.actions));
  }

  /** Main result: a poll that does not throw keeps every bound and enters everything it did in the history. */
  lemma PollKeepsInv(cfg: Config, it: Item, h: History, snap: Snapshot, now: int)
    requires Inv(cfg, it, h) && !ItemThrows(cfg, it, snap, now)
    ensures Accounted(cfg, it, h, snap, TransitionItem(cfg, it, snap, now))
  {
    hide Count, Inv, Body, Tail;
    BodyAccounted(cfg, it, h, snap, now);
    var body := Body(cfg, it, snap, now);
    if !ExternallyMerged(it, snap) {
      TailInv(cfg, body.item, Advance(cfg, h, it, snap, body.actions), snap, now);
      JoinTail(cfg, it, h, snap, body, Tail(body.item, snap, now));
    }
  }

  // ---- Two inputs that throw --------------------------------------------------------------

  /** A worker that was relaunched on feedback reports "no new info" about its open pull request. */
  lemma SpuriousWakeThrows(cfg: Config, w: WorkItem, now: int)
    ensures var it := NewItem(w, 0);
      var waiting := it.(state := Implementing, review := it.review.(lastReviewed := Ref(7)));
      var snap := NoSnapshot().(prNumber := Ref(1), prState := Open, noNewInfo := true, headSha := Ref(7));
      ParkedOk(waiting) && TransitionItem(cfg, waiting, snap, now) == Throw(Implementing, ReviewPending)
  {
    var it := NewItem(w, 0);
    var waiting := it.(state := Implementing, review := it.review.(lastReviewed := Ref(7)));
    var snap := NoSnapshot().(prNumber := Ref(1), prState := Open, noNewInfo := true, headSha := Ref(7));
    hide Body, Tail;
    BodyLeaves(cfg, waiting, snap, now);
  }

  /** The circuit breaker parks a live worker on a stuck item that still holds a due feedback batch. */
  lemma ParkedBatchThrows(cfg: Config, w: WorkItem)
    ensures var it := NewItem(w, 0);
      var failing := it.(state := CiFailed, ci := it.ci.(failCount := Max(0, cfg.maxCiRetries + 1)),
                         feedback := it.feedback.(batch := Batch({Comment(1, 0, false)}, 0)));
      var snap := NoSnapshot().(workerAlive := Yes);
      ParkedOk(failing) && TransitionItem(cfg, failing, snap, 0) == Throw(Stuck, Ready)
  {
    hide Body, Tail;
    var it := NewItem(w, 0);
    var failing := it.(state := CiFailed, ci := it.ci.(failCount := Max(0, cfg.maxCiRetries + 1)),
                       feedback := it.feedback.(batch := Batch({Comment(1, 0, false)}, 0)));
    var snap := NoSnapshot().(workerAlive := Yes);
    assert Comment(1, 0, false) in failing.feedback.batch.comments;
    BodyLeaves(cfg, failing, snap, 0);
    StuckStays(Body(cfg, failing, snap, 0).item, snap, 0);
  }
}
