/**
 * How often one item asks for a rebase: over any sequence of polls two requests keep the cooldown,
 * unless a poll in between finds the pull request mergeable or reads a time older than the first.
 */
module RebaseCooldown {
  import opened OrchestratorTypes
  import opened OrchestratorGuards
  import opened Lifecycle
  import opened LifecycleFacts
  import opened LifecycleSteps
  import opened Execution
  import opened ActionHomes
  import opened FeedbackTiming

  /** One poll of the item: how it was before, and what the poll saw when. */
  datatype Visit = Visit(before: Item, snap: Snapshot, now: int)

  function After(cfg: Config, v: Visit): Step {
    TransitionItem(cfg, v.before, v.snap, v.now)
  }

  /** The polls of one item in order; what happens between them leaves the nudge on record. */
  ghost predicate Follows(cfg: Config, polls: seq<Visit>) {
    && (forall k :: 0 <= k < |polls| ==> ParkedOk(polls[k].before) && After(cfg, polls[k]).Step?)
    && (forall k :: 0 <= k < |polls| - 1 ==>
          && polls[k].now <= polls[k + 1].now
          && After(cfg, polls[k]).Step?
          && polls[k + 1].before.rebase.lastNudgeAt == After(cfg, polls[k]).item.rebase.lastNudgeAt)
  }

  predicate AsksRebase(cfg: Config, v: Visit) {
    After(cfg, v).Step? && exists j :: 0 <= j < |After(cfg, v).actions| && After(cfg, v).actions[j].DaemonRebase?
  }

  /** A nudge no older than `since` is on record. */
  predicate Remembers(it: Item, since: int) {
    it.rebase.lastNudgeAt.At? && it.rebase.lastNudgeAt.ms >= since
  }

  /** The poll neither finds the pull request mergeable nor reads a time before `since`. */
  predicate KeepsRecord(v: Visit, since: int) {
    && !(TracksRebase(v.before.state) && v.snap.isMergeable.Yes?)
    && (v.snap.eventTime.At? ==> v.snap.eventTime.ms >= since)
    && (v.snap.lastCommitTime.At? ==> v.snap.lastCommitTime.ms >= since)
    && v.now >= since
  }

  /** A poll that asks for a rebase found the last nudge stale and puts its own time on record. */
  lemma RequestOnRecord(cfg: Config, v: Visit)
    requires ParkedOk(v.before) && AsksRebase(cfg, v)
    ensures IsRebaseStale(Seen(v.before, v.snap, v.now).rebase.lastNudgeAt, v.now, cfg.rebaseRetryStaleMs)
    ensures After(cfg, v).item.rebase.lastNudgeAt == At(v.now)
  {
    hide TransitionItem, Seen, PollStrays, FeedbackSettled, HeldForHuman;
    PollInPlace(cfg, v.before, v.snap, v.now);
    var step := After(cfg, v);
    var j :| 0 <= j < |step.actions| && step.actions[j].DaemonRebase?;
    assert Moving(step.actions[j]);
    if ExternallyMerged(v.before, v.snap) {
      NothingMoves(cfg, v);
    }
  }

  lemma NothingMoves(cfg: Config, v: Visit)
    requires ExternallyMerged(v.before, v.snap)
    ensures !AsksRebase(cfg, v)
  {
    MergedOutside(v.before, v.snap, v.now);
  }

  lemma SeenRemembers(v: Visit, since: int)
    requires Remembers(v.before, since) && KeepsRecord(v, since)
    ensures Remembers(Seen(v.before, v.snap, v.now), since)
  {
  }

  lemma PollRemembers(cfg: Config, v: Visit, since: int)
    requires ParkedOk(v.before) && After(cfg, v).Step?
    requires Remembers(v.before, since) && KeepsRecord(v, since)
    ensures Remembers(After(cfg, v).item, since)
  {
    hide TransitionItem, Seen, PollStrays, FeedbackSettled, InPlace;
    PollInPlace(cfg, v.before, v.snap, v.now);
    SeenRemembers(v, since);
  }

  lemma {:induction false} StillOnRecord(cfg: Config, polls: seq<Visit>, i: nat, j: nat)
    requires i < j < |polls| && Follows(cfg, polls) && AsksRebase(cfg, polls[i])
    requires forall m :: i < m < j ==> KeepsRecord(polls[m], polls[i].now)
    ensures Remembers(polls[j].before, polls[i].now)
  {
    hide After, KeepsRecord, AsksRebase;
    if j == i + 1 {
      RequestOnRecord(cfg, polls[i]);
    } else {
      StillOnRecord(cfg, polls, i, j - 1);
      PollRemembers(cfg, polls[j - 1], polls[i].now);
    }
    assert polls[j - 1 + 1].before.rebase.lastNudgeAt == After(cfg, polls[j - 1]).item.rebase.lastNudgeAt;
  }

  /** Main result: over any polls of one item, two rebase requests lie closer than the cooldown only if a poll cleared the record. */
  lemma RequestsKeepCooldown(cfg: Config, polls: seq<Visit>, i: nat, j: nat)
    requires i < j < |polls| && Follows(cfg, polls) && AsksRebase(cfg, polls[i]) && AsksRebase(cfg, polls[j])
    requires forall m :: i < m <= j ==> KeepsRecord(polls[m], polls[i].now)
    ensures polls[j].now - polls[i].now >= cfg.rebaseRetryStaleMs
  {
    hide After, Follows, KeepsRecord, AsksRebase, Seen;
    StillOnRecord(cfg, polls, i, j);
    SeenRemembers(polls[j], polls[i].now);
    AllParked(cfg, polls, j);
    RequestOnRecord(cfg, polls[j]);
  }

  lemma AllParked(cfg: Config, polls: seq<Visit>, j: nat)
    requires j < |polls| && Follows(cfg, polls)
    ensures ParkedOk(polls[j].before)
  {
  }

  /** The step of an action leaves the nudge on record. */
  predicate SameRecord(it: Item, move: Move) {
    move.Moved? ==> move.item.rebase.lastNudgeAt == it.rebase.lastNudgeAt
  }

  lemma TransitionsKeepRecord(now: int)
    ensures forall it: Item, to: State :: SameRecord(it, Transition(it, to, now))
  {
  }

  lemma LaunchKeepsRecord(cfg: Config, items: seq<Item>, it: Item, base: Ref, answers: Answers, now: int)
    ensures SameRecord(it, ExecuteLaunch(cfg, items, it, base, answers, now))
  {
    hide Transition, BaseGone;
    TransitionsKeepRecord(now);
  }

  lemma MergeKeepsRecord(cfg: Config, items: seq<Item>, it: Item, pr: Ref, answers: Answers, now: int)
    ensures SameRecord(it, ExecuteMerge(cfg, items, it, pr, answers, now))
  {
    hide Transition, BaseGone, WasRecentlyUnstacked, ExpectedBase;
    TransitionsKeepRecord(now);
  }

  /** Executing an action leaves the nudge on record, so executions may come between the polls. */
  lemma ExecutionKeepsRecord(cfg: Config, items: seq<Item>, it: Item, action: Action, answers: Answers, now: int)
    ensures SameRecord(it, ExecuteAction(cfg, items, it, action, answers, now))
  {
    hide Transition, ExecuteLaunch, ExecuteMerge;
    TransitionsKeepRecord(now);
    match action {
      case Launch(_, base) => LaunchKeepsRecord(cfg, items, it, base, answers, now);
      case Merge(_, pr, _) => MergeKeepsRecord(cfg, items, it, pr, answers, now);
      case _ =>
    }
  }

  /** A commit the snapshot does not date, and an old event: the second request follows a moment later. */
  lemma CooldownCut(cfg: Config, w: WorkItem)
    requires cfg.rebaseRetryStaleMs > 2 && cfg.maxCiRetries >= 0
    ensures var added := NewItem(w, 0);
      var asked := added.(state := CiFailed, pr := added.pr.(lastCommitTime := At(1)),
                          rebase := added.rebase.(requested := true, lastNudgeAt := At(0)));
      var v := Visit(asked, NoSnapshot().(isMergeable := No, eventTime := At(2 - cfg.rebaseRetryStaleMs)), 2);
      AsksRebase(cfg, v)
  {
    var added := NewItem(w, 0);
    var asked := added.(state := CiFailed, pr := added.pr.(lastCommitTime := At(1)),
                        rebase := added.rebase.(requested := true, lastNudgeAt := At(0)));
    var snap := NoSnapshot().(isMergeable := No, eventTime := At(2 - cfg.rebaseRetryStaleMs));
    var v := Visit(asked, snap, 2);
    assert HumanComments([]) == [];
    var body := Body(cfg, asked, snap, 2);
    assert body == PlanRebaseConflictAction(cfg, Seen(asked, snap, 2), 2);
    assert body.actions == [DaemonRebase(w.id, false)];
    NoBatchNoTail(body.item, snap, 2);
    assert After(cfg, v).actions[0] == DaemonRebase(w.id, false);
  }
}
