/**
 * A conflict that lasts: how the requests to rebase one item follow each other, and which one goes to the
 * rebaser (core/orchestrator.ts).
 */
module RebaseEscalation {
  import opened OrchestratorTypes
  import opened Lifecycle
  import opened LifecycleFacts
  import opened LifecycleSteps
  import opened Destinations
  import opened PollEffects
  import opened ActionHomes

  datatype Look = Look(snap: Snapshot, now: int)

  /** The item waits in place, its branch conflicts, and no commit has come since the last request. */
  predicate Conflicts(cfg: Config, it: Item, look: Look) {
    && look.snap.isMergeable == No && !look.snap.prState.PrMerged? && !it.session.parked && !ProgressSeen(it, look.snap)
    && (|| (it.state.CiPending? && !look.snap.ciStatus.Fail?)
        || (it.state.CiFailed? && it.ci.failCount <= cfg.maxCiRetries && !look.snap.ciStatus.Pass? && !look.snap.ciStatus.InProgress?))
  }

  /** The conflict lasts over all these polls of the item. */
  predicate Lasts(cfg: Config, it: Item, looks: seq<Look>)
    decreases |looks|
  {
    looks != [] ==>
      && Conflicts(cfg, it, looks[0])
      && var step := TransitionItem(cfg, it, looks[0].snap, looks[0].now);
      step.Step? && Lasts(cfg, step.item, looks[1..])
  }

  /** The requests among some actions, each by whether it goes to the rebaser. */
  function Requests(actions: seq<Action>): seq<bool> {
    if actions == [] then []
    else (if actions[0].DaemonRebase? then [actions[0].escalateToRebaser] else []) + Requests(actions[1..])
  }

  function RequestsOver(cfg: Config, it: Item, looks: seq<Look>): seq<bool>
    decreases |looks|
  {
    if looks == [] then []
    else
      var step := TransitionItem(cfg, it, looks[0].snap, looks[0].now);
      if !step.Step? then [] else Requests(step.actions) + RequestsOver(cfg, step.item, looks[1..])
  }

  /** `n` requests are on record, the last one at `at`. */
  predicate Recorded(it: Item, n: nat, at: int) {
    if n == 0 then !it.rebase.requested && it.rebase.lastNudgeAt == Undefined
    else it.rebase.requested && it.rebase.lastNudgeAt == At(at) && it.rebase.nudgeCount == n - 1
  }

  lemma {:induction false} StillRequestsNothing(actions: seq<Action>)
    requires Still(actions)
    ensures Requests(actions) == []
  {
    if actions != [] {
      StillRequestsNothing(actions[1..]);
    }
  }

  lemma RequestsStep(actions: seq<Action>)
    requires actions != []
    ensures Requests(actions) == Requests([actions[0]]) + Requests(actions[1..])
  {
    assert [actions[0]][1..] == [];
  }

  lemma RequestsJoin(a: seq<Action>, b: seq<Action>)
    requires a != [] && Requests(a[1..] + b) == Requests(a[1..]) + Requests(b)
    ensures Requests(a + b) == Requests(a) + Requests(b)
  {
    hide Requests;
    RequestsStep(a);
    RequestsStep(a + b);
    assert (a + b)[1..] == a[1..] + b;
    assert Requests(a + b) == Requests([a[0]]) + (Requests(a[1..]) + Requests(b));
  }

  lemma {:induction false} RequestsConcat(a: seq<Action>, b: seq<Action>)
    ensures Requests(a + b) == Requests(a) + Requests(b)
  {
    if a == [] {
      assert a + b == b;
    } else {
      RequestsConcat(a[1..], b);
      RequestsJoin(a, b);
    }
  }

  /** A request is due: the first one at once, a later one when the cooldown is over. */
  predicate Due(cfg: Config, n: nat, at: int, now: int) {
    n == 0 || now >= at + cfg.rebaseRetryStaleMs
  }

  lemma PlanSteps(cfg: Config, it: Item, n: nat, at: int, now: int)
    requires Recorded(it, n, at)
    ensures var plan := PlanRebaseConflictAction(cfg, it, now);
      && plan.Step? && plan.item == it.(rebase := plan.item.rebase)
      && plan.actions == (if Due(cfg, n, at, now) then [DaemonRebase(it.id, n >= 2)] else [])
      && (if Due(cfg, n, at, now) then Recorded(plan.item, n + 1, now) else Recorded(plan.item, n, at))
  {
  }

  lemma ConflictPlans(cfg: Config, it: Item, look: Look)
    requires Conflicts(cfg, it, look)
    ensures Handle(cfg, it, look.snap, look.now) == PlanRebaseConflictAction(cfg, it, look.now)
  {
    hide PlanRebaseConflictAction, FailCi, PassAndEvaluate, HandleCiPassed, RestartCi, HandleCiStillFailing, ResolvePendingFeedbackBatch;
  }

  lemma SeenConflicts(cfg: Config, it: Item, look: Look, n: nat, at: int)
    requires Conflicts(cfg, it, look) && Recorded(it, n, at)
    ensures var seen := Seen(it, look.snap, look.now);
      && Conflicts(cfg, seen, look) && Recorded(seen, n, at) && seen.id == it.id && !ExternallyMerged(it, look.snap)
  {
    hide Seen;
    SeenIsNoted(it, look.snap, look.now);
  }

  /** One poll in conflict. */
  lemma PollSteps(cfg: Config, it: Item, look: Look, n: nat, at: int)
    requires Conflicts(cfg, it, look) && Recorded(it, n, at)
    ensures var step := TransitionItem(cfg, it, look.snap, look.now);
      && step.Step?
      && Requests(step.actions) == (if Due(cfg, n, at, look.now) then [n >= 2] else [])
      && (if Due(cfg, n, at, look.now) then Recorded(step.item, n + 1, look.now) else Recorded(step.item, n, at))
  {
    hide Seen, Handle, Tail, PlanRebaseConflictAction, Conflicts;
    SeenConflicts(cfg, it, look, n, at);
    var seen := Seen(it, look.snap, look.now);
    ConflictPlans(cfg, seen, look);
    PlanSteps(cfg, seen, n, at, look.now);
    var plan := PlanRebaseConflictAction(cfg, seen, look.now);
    WaitsInPlace(cfg, seen, look);
    TailStays(plan.item, look.snap, look.now);
    var tail := Tail(plan.item, look.snap, look.now);
    RequestsConcat(plan.actions, tail.actions);
    StillRequestsNothing(tail.actions);
    PlannedRequests(plan.actions, seen.id, n >= 2);
    assert Requests(plan.actions) + [] == Requests(plan.actions);
  }

  lemma WaitsInPlace(cfg: Config, it: Item, look: Look)
    requires Conflicts(cfg, it, look)
    ensures (it.state.CiPending? || it.state.CiFailed?) && !it.session.parked
  {
  }

  lemma PlannedRequests(actions: seq<Action>, id: Id, escalate: bool)
    ensures actions == [DaemonRebase(id, escalate)] ==> Requests(actions) == [escalate]
    ensures actions == [] ==> Requests(actions) == []
  {
    if actions == [DaemonRebase(id, escalate)] {
      assert actions[1..] == [];
    }
  }

  lemma {:induction false} RequestsFrom(cfg: Config, it: Item, looks: seq<Look>, n: nat, at: int)
    requires Lasts(cfg, it, looks) && Recorded(it, n, at)
    ensures forall k :: 0 <= k < |RequestsOver(cfg, it, looks)| ==> (RequestsOver(cfg, it, looks)[k] <==> n + k >= 2)
    decreases |looks|
  {
    hide TransitionItem, Conflicts, Recorded, Requests;
    if looks != [] {
      var step := TransitionItem(cfg, it, looks[0].snap, looks[0].now);
      PollSteps(cfg, it, looks[0], n, at);
      if Due(cfg, n, at, looks[0].now) {
        RequestsFrom(cfg, step.item, looks[1..], n + 1, looks[0].now);
      } else {
        RequestsFrom(cfg, step.item, looks[1..], n, at);
      }
    }
  }

  /**
   * Main result: over any polls of an item whose conflict lasts, the first two requests go to the daemon
   * and every later one to the rebaser.
   */
  lemma ThirdRequestEscalates(cfg: Config, it: Item, looks: seq<Look>)
    requires Lasts(cfg, it, looks) && !it.rebase.requested && it.rebase.lastNudgeAt == Undefined
    ensures forall k :: 0 <= k < |RequestsOver(cfg, it, looks)| ==> (RequestsOver(cfg, it, looks)[k] <==> k >= 2)
    ensures looks != [] ==> RequestsOver(cfg, it, looks) != []
  {
    hide TransitionItem, Conflicts, Requests;
    RequestsFrom(cfg, it, looks, 0, 0);
    if looks != [] {
      PollSteps(cfg, it, looks[0], 0, 0);
    }
  }
}
