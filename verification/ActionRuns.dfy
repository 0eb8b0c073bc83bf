/**
 * Executing everything a poll asked for, with one answer from outside for each action: exactly when
 * this throws.
 */
module ActionRuns {
  import opened OrchestratorTypes
  import opened Lifecycle
  import opened LifecycleFacts
  import opened LifecycleSteps
  import opened Poll
  import opened PollFacts
  import opened PollQueues
  import opened PollTheorems
  import opened Execution
  import opened ExecutionFacts
  import opened Claims
  import opened ActionHomes
  import opened PollHomes
  import FeedbackTiming

  /** One executed action, what the outside world answered, and when. */
  datatype Trial = Trial(action: Action, answers: Answers, now: int)

  /** The items after some trials in a row, or the exception of one of them. */
  function ExecuteAll(cfg: Config, items: seq<Item>, run: seq<Trial>): (s: Sweep)
    ensures s.Sweep? ==> |s.items| == |items|
  {
    if run == [] then Sweep(items, [])
    else
      var last := run[|run| - 1];
      var before :- ExecuteAll(cfg, items, run[..|run| - 1]);
      Execute(cfg, before.items, last.action, last.answers, last.now)
  }

  /** The trials execute actions of the list, each at most once. */
  predicate Executes(actions: seq<Action>, order: seq<nat>, run: seq<Trial>) {
    && |order| == |run|
    && (forall i, j :: 0 <= i < j < |order| ==> order[i] != order[j])
    && (forall i :: 0 <= i < |order| ==> order[i] < |actions| && run[i].action == actions[order[i]])
  }

  /** Merges go through the request queue: they come after the rebase requests, which are executed at once. */
  predicate MergesLast(run: seq<Trial>) {
    forall i, j :: 0 <= i < j < |run| && run[i].action.Merge? ==> !run[j].action.DaemonRebase?
  }

  // ---- What a poll hands over -------------------------------------------------------------

  /** No item gets two actions that move it, but for a rebase request and a merge. */
  predicate OneMoveEach(actions: seq<Action>) {
    forall i, j :: 0 <= i < j < |actions| && Moving(actions[i]) && Moving(actions[j]) && actions[i].id == actions[j].id ==>
      (actions[i].Merge? && actions[j].DaemonRebase?) || (actions[i].DaemonRebase? && actions[j].Merge?)
  }

  /** Every action finds its item right, strays are where they went, and no item is moved twice. */
  predicate Executable(cfg: Config, start: seq<Item>, snaps: map<Id, Snapshot>, now: int, items: seq<Item>, actions: seq<Action>) {
    && SameIds(start, items) && DistinctIds(items)
    && (forall a :: a in actions && Moving(a) ==> EndsRight(cfg, start, snaps, now, items, a))
    && (forall k :: 0 <= k < |items| && StraysAt(cfg, start, k, snaps, now) ==> EndsAstray(cfg, start[k], items[k]))
    && OneMoveEach(actions)
  }

  lemma {:induction false} MergeIsListed(actions: seq<Action>, i: nat)
    requires i < |actions| && actions[i].Merge?
    ensures |MergeIds(actions)| >= 1
  {
    if i > 0 {
      MergeIsListed(actions[1..], i - 1);
    }
  }

  lemma {:induction false} TwoMergesListed(actions: seq<Action>, i: nat, j: nat)
    requires i < j < |actions| && actions[i].Merge? && actions[j].Merge?
    ensures |MergeIds(actions)| >= 2
  {
    if i > 0 {
      TwoMergesListed(actions[1..], i - 1, j - 1);
    } else {
      MergeIsListed(actions[1..], j - 1);
    }
  }

  lemma {:induction false} LaunchAt(actions: seq<Action>, i: nat) returns (p: nat)
    requires i < |actions| && actions[i].Launch?
    ensures p < |LaunchesIn(actions)| && LaunchesIn(actions)[p] == actions[i]
  {
    if i == 0 {
      p := 0;
    } else {
      var q := LaunchAt(actions[1..], i - 1);
      p := if actions[0].Launch? then q + 1 else q;
    }
  }

  lemma {:induction false} TwoLaunchesAt(actions: seq<Action>, i: nat, j: nat) returns (p: nat, q: nat)
    requires i < j < |actions| && actions[i].Launch? && actions[j].Launch?
    ensures p < q < |LaunchesIn(actions)| && LaunchesIn(actions)[p] == actions[i] && LaunchesIn(actions)[q] == actions[j]
  {
    if i == 0 {
      p := 0;
      var r := LaunchAt(actions[1..], j - 1);
      q := r + 1;
    } else {
      var a, b := TwoLaunchesAt(actions[1..], i - 1, j - 1);
      p, q := if actions[0].Launch? then a + 1 else a, if actions[0].Launch? then b + 1 else b;
    }
  }

  /** The launches are for different items. */
  predicate LaunchedOnce(actions: seq<Action>) {
    forall i, j :: 0 <= i < j < |actions| && actions[i].Launch? && actions[j].Launch? ==> actions[i].id != actions[j].id
  }

  lemma TargetsLaunchedOnce(items: seq<Item>, actions: seq<Action>)
    requires LaunchTargets(items, LaunchesIn(actions))
    ensures LaunchedOnce(actions)
  {
    hide LaunchesIn, IsLaunching;
    forall i, j | 0 <= i < j < |actions| && actions[i].Launch? && actions[j].Launch? ensures actions[i].id != actions[j].id {
      var p, q := TwoLaunchesAt(actions, i, j);
    }
  }

  /** Two actions that move the same item: where it ends tells which. */
  lemma MovesDiffer(cfg: Config, start: seq<Item>, snaps: map<Id, Snapshot>, now: int, items: seq<Item>, a: Action, b: Action)
    requires |start| == |items| && DistinctIds(items) && a.id == b.id && Moving(a) && Moving(b)
    requires EndsRight(cfg, start, snaps, now, items, a) && EndsRight(cfg, start, snaps, now, items, b)
    requires forall k :: 0 <= k < |items| && StraysAt(cfg, start, k, snaps, now) ==> EndsAstray(cfg, start[k], items[k])
    ensures
      || (Asking(a) && Asking(b)) || (a.Merge? && b.Merge?) || (a.Launch? && b.Launch?)
      || (a.Merge? && b.DaemonRebase?) || (a.DaemonRebase? && b.Merge?)
  {
    hide StraysAt;
    var k :| 0 <= k < |items| && items[k].id == a.id && EndsRightAt(cfg, start, snaps, now, items, k, a);
    var l :| 0 <= l < |items| && items[l].id == b.id && EndsRightAt(cfg, start, snaps, now, items, l, b);
    assert k == l;
  }

  /** Main result about the poll: its actions can be executed in this sense. */
  lemma PollExecutable(cfg: Config, items: seq<Item>, reevaluate: bool, snaps: map<Id, Snapshot>, readyIds: set<Id>, now: int)
    requires DistinctIds(items) && AllParkedOk(items) && ProcessTransitions(cfg, items, reevaluate, snaps, readyIds, now).Sweep?
    ensures var r := ProcessTransitions(cfg, items, reevaluate, snaps, readyIds, now);
      && Executable(cfg, items, snaps, now, r.items, r.actions)
      && LaunchTargets(r.items, LaunchesIn(r.actions)) && AskedOnce(r.actions) && |MergeIds(r.actions)| <= 1
  {
    hide ProcessTransitions, StraysAt, EndsRight, EndsAstray, ParkedOk, MergeReady, Promoted, Transitioned, Launches, LaunchesIn,
         ThrowsFrom, Find, LaunchTargets;
    var r := ProcessTransitions(cfg, items, reevaluate, snaps, readyIds, now);
    PollCrashesExactly(cfg, items, reevaluate, snaps, readyIds, now);
    PollAsksAtHome(cfg, items, reevaluate, snaps, readyIds, now);
    PollAsksForOneMerge(cfg, items, reevaluate, snaps, readyIds, now);
    TransitionsFirst(cfg, items, reevaluate, snaps, readyIds, now);
    PollLaunchesExactly(cfg, items, reevaluate, snaps, readyIds, now);
    var ready := Promoted(cfg, Transitioned(cfg, items, reevaluate, snaps, now).items, readyIds, now);
    LaunchesTarget(ready, r.items, 0);
    TargetsLaunchedOnce(r.items, r.actions);
    OneMoveByKind(cfg, items, snaps, now, r.items, r.actions);
  }

  lemma OneMoveByKind(cfg: Config, start: seq<Item>, snaps: map<Id, Snapshot>, now: int, items: seq<Item>, actions: seq<Action>)
    requires SameIds(start, items) && DistinctIds(items)
    requires forall a :: a in actions && Moving(a) ==> EndsRight(cfg, start, snaps, now, items, a)
    requires forall k :: 0 <= k < |items| && StraysAt(cfg, start, k, snaps, now) ==> EndsAstray(cfg, start[k], items[k])
    requires AskedOnce(actions) && LaunchedOnce(actions) && |MergeIds(actions)| <= 1
    ensures OneMoveEach(actions)
  {
    hide StraysAt, EndsRight, EndsAstray, MergeIds;
    forall i, j | 0 <= i < j < |actions| && Moving(actions[i]) && Moving(actions[j]) && actions[i].id == actions[j].id
      ensures (actions[i].Merge? && actions[j].DaemonRebase?) || (actions[i].DaemonRebase? && actions[j].Merge?)
    {
      MovesDiffer(cfg, start, snaps, now, items, actions[i], actions[j]);
      if actions[i].Merge? && actions[j].Merge? {
        TwoMergesListed(actions, i, j);
      }
    }
  }

  // ---- What the broker leaves of it -------------------------------------------------------

  /** The resolution of the launches touches only items that may be launched. */
  predicate Aside(items: seq<Item>, next: seq<Item>) {
    && SameIds(items, next)
    && forall k :: 0 <= k < |items| ==> next[k] == items[k] || (Launchable(items[k].state) && Launchable(next[k].state))
  }

  lemma AsideChain(a: seq<Item>, b: seq<Item>, c: seq<Item>)
    requires Aside(a, b) && Aside(b, c)
    ensures Aside(a, c)
  {
  }

  lemma HydrateAside(items: seq<Item>, id: Id, to: State, now: int)
    requires DistinctIds(items) && Launchable(to) && (Find(items, id) >= 0 ==> Launchable(items[Find(items, id)].state))
    ensures Aside(items, Hydrate(items, id, to, now)) && DistinctIds(Hydrate(items, id, to, now))
  {
  }

  lemma {:induction false} PutBackAside(items: seq<Item>, launches: seq<Action>, now: int)
    requires DistinctIds(items) && LaunchTargets(items, launches)
    ensures Aside(items, PutBack(items, launches, now)) && DistinctIds(PutBack(items, launches, now))
    decreases |launches|
  {
    hide Find, Hydrate, Aside;
    if launches == [] {
      NothingAside(items);
    } else {
      var id := launches[0].id;
      var next := Hydrate(items, id, State.Ready, now);
      HydrateAside(items, id, State.Ready, now);
      HydrateFacts(items, id, State.Ready, now);
      assert forall j :: 0 <= j < |launches[1..]| ==> launches[1..][j] == launches[j + 1];
      PutBackAside(next, launches[1..], now);
      AsideChain(items, next, PutBack(next, launches[1..], now));
    }
  }

  lemma NothingAside(items: seq<Item>)
    ensures Aside(items, items)
  {
  }

  lemma {:induction false} GrantedOnce(claims: seq<Ref>)
    ensures forall i, j :: 0 <= i < j < |Granted(claims)| ==> Granted(claims)[i] != Granted(claims)[j]
  {
    if claims != [] {
      GrantedOnce(claims[..|claims| - 1]);
    }
  }

  /** Launches of different items that are launching, for ids among `ids`. */
  predicate LaunchesOf(items: seq<Item>, actions: seq<Action>, ids: seq<Id>) {
    && LaunchedOnce(actions)
    && forall a :: a in actions ==> a.Launch? && a.id in ids && IsLaunching(items, a.id)
  }

  lemma {:induction false} GrantedAside(items: seq<Item>, ids: seq<Id>, now: int)
    requires DistinctIds(items) && forall i, j :: 0 <= i < j < |ids| ==> ids[i] != ids[j]
    ensures var s := LaunchGranted(items, ids, now);
      Aside(items, s.items) && DistinctIds(s.items) && LaunchesOf(s.items, s.actions, ids)
    ensures var s := LaunchGranted(items, ids, now);
      forall id :: id !in ids && IsLaunching(items, id) ==> IsLaunching(s.items, id)
    decreases |ids|
  {
    hide Find, Hydrate, Aside;
    if ids == [] {
      NothingAside(items);
    } else {
      var rest := ids[1..];
      assert forall i :: 0 <= i < |rest| ==> rest[i] == ids[i + 1];
      var k := Find(items, ids[0]);
      if k < 0 || !Launchable(items[k].state) {
        GrantedAside(items, rest, now);
      } else {
        var next := Hydrate(items, ids[0], Launching, now);
        HydrateAside(items, ids[0], Launching, now);
        HydrateFacts(items, ids[0], Launching, now);
        HydratedLaunches(items, ids[0], now);
        GrantedAside(next, rest, now);
        var s := LaunchGranted(next, rest, now);
        AsideChain(items, next, s.items);
        assert ids[0] !in rest;
      }
    }
  }

  lemma HydratedLaunches(items: seq<Item>, id: Id, now: int)
    requires DistinctIds(items) && Find(items, id) >= 0
    ensures IsLaunching(Hydrate(items, id, Launching, now), id)
  {
    HydrateFacts(items, id, Launching, now);
  }

  lemma {:induction false} WithoutLaunchesKeeps(actions: seq<Action>)
    ensures forall a :: a in WithoutLaunches(actions) <==> a in actions && !a.Launch?
    ensures MergeIds(WithoutLaunches(actions)) == MergeIds(actions)
    ensures AskedOnce(actions) ==> AskedOnce(WithoutLaunches(actions))
  {
    hide AskedOnce;
    if actions != [] {
      var rest := actions[1..];
      WithoutLaunchesKeeps(rest);
      HeadAskedOnce(actions[0], rest);
      HeadAskedOnce(actions[0], WithoutLaunches(rest));
      assert actions == [actions[0]] + rest;
      assert [] + WithoutLaunches(rest) == WithoutLaunches(rest);
    }
  }

  lemma {:induction false} LaunchesMergeNothing(actions: seq<Action>, launches: seq<Action>)
    requires forall a :: a in launches ==> a.Launch?
    ensures MergeIds(actions + launches) == MergeIds(actions)
  {
    if actions == [] {
      assert actions + launches == launches;
      if launches != [] {
        assert launches[0] in launches;
        LaunchesMergeNothing([], launches[1..]);
        assert [] + launches[1..] == launches[1..];
      }
    } else {
      assert (actions + launches)[1..] == actions[1..] + launches;
      LaunchesMergeNothing(actions[1..], launches);
    }
  }

  /** Of the actions that move items only the launches change, and they find their items launching. */
  predicate Replaced(items: seq<Item>, actions: seq<Action>, resolved: seq<Action>) {
    && AskedOnce(resolved) && LaunchedOnce(resolved) && |MergeIds(resolved)| <= 1
    && forall a :: a in resolved ==> if a.Launch? then IsLaunching(items, a.id) else a in actions
  }

  lemma ResolutionReplaces(items: seq<Item>, actions: seq<Action>, crew: Crew, now: int)
    requires DistinctIds(items) && LaunchTargets(items, LaunchesIn(actions)) && AskedOnce(actions) && |MergeIds(actions)| <= 1
    ensures var s := ResolveClaims(items, actions, crew, now);
      Aside(items, s.items) && DistinctIds(s.items) && Replaced(s.items, actions, s.actions)
  {
    hide LaunchesIn, PutBack, LaunchGranted, Granted, MergeIds, AskedOnce, Find, Aside, DistinctIds, WithoutLaunches;
    var launches := LaunchesIn(actions);
    if crew.Alone? || launches == [] {
      NothingAside(items);
      TargetsLaunchedOnce(items, actions);
      LaunchesAreListed(items, actions);
    } else {
      PutBackAside(items, launches, now);
      WithoutLaunchesKeeps(actions);
      var back, rest := PutBack(items, launches, now), WithoutLaunches(actions);
      if crew.Connected? {
        var ids := Granted(Claims.Answered(crew.claims, launches));
        GrantedOnce(Claims.Answered(crew.claims, launches));
        GrantedAside(back, ids, now);
        var granted := LaunchGranted(back, ids, now);
        AsideChain(items, back, granted.items);
        LaunchesMergeNothing(rest, granted.actions);
        AppendAskedOnce(rest, granted.actions);
        AppendLaunchedOnce(rest, granted.actions);
      }
    }
  }

  lemma LaunchesAreListed(items: seq<Item>, actions: seq<Action>)
    requires LaunchTargets(items, LaunchesIn(actions))
    ensures forall a :: a in actions && a.Launch? ==> IsLaunching(items, a.id)
  {
    hide LaunchesIn, Find;
    forall a | a in actions && a.Launch? ensures IsLaunching(items, a.id) {
      LaunchIsListed(actions, a);
    }
  }

  lemma AppendLaunchedOnce(a: seq<Action>, b: seq<Action>)
    requires (forall x :: x in a ==> !x.Launch?) && LaunchedOnce(b)
    ensures LaunchedOnce(a + b)
  {
    var all := a + b;
    assert forall k :: 0 <= k < |a| ==> all[k] == a[k] && all[k] in a;
    forall i, j | 0 <= i < j < |all| && all[i].Launch? && all[j].Launch? ensures all[i].id != all[j].id {
      assert all[i] == b[i - |a|] && all[j] == b[j - |a|];
    }
  }

  /** The resolved actions can be executed as well. */
  lemma ResolvedExecutable(cfg: Config, start: seq<Item>, snaps: map<Id, Snapshot>, now: int, items: seq<Item>, actions: seq<Action>,
                           next: seq<Item>, resolved: seq<Action>)
    requires Executable(cfg, start, snaps, now, items, actions)
    requires Aside(items, next) && DistinctIds(next) && Replaced(next, actions, resolved)
    ensures Executable(cfg, start, snaps, now, next, resolved)
  {
    hide StraysAt, DistinctIds, OneMoveEach, EndsAstray, AskedOnce, LaunchedOnce, MergeIds, Find, IsLaunching;
    forall k | 0 <= k < |next| && StraysAt(cfg, start, k, snaps, now) ensures EndsAstray(cfg, start[k], next[k]) {
      StraysStayAside(cfg, start[k], items[k], next[k]);
    }
    forall a | a in resolved && Moving(a) ensures EndsRight(cfg, start, snaps, now, next, a) {
      if a.Launch? {
        LaunchEndsHome(cfg, start, snaps, now, next, a);
      } else {
        var k :| 0 <= k < |items| && items[k].id == a.id && EndsRightAt(cfg, start, snaps, now, items, k, a);
        AsideEndsRight(cfg, start, snaps, now, items, next, k, a);
        assert next[k].id == a.id;
      }
    }
    OneMoveByKind(cfg, start, snaps, now, next, resolved);
  }

  lemma StraysStayAside(cfg: Config, before: Item, it: Item, next: Item)
    requires EndsAstray(cfg, before, it) && (next == it || (Launchable(it.state) && Launchable(next.state)))
    ensures EndsAstray(cfg, before, next)
  {
  }

  lemma LaunchEndsHome(cfg: Config, start: seq<Item>, snaps: map<Id, Snapshot>, now: int, items: seq<Item>, a: Action)
    requires |start| == |items| && a.Launch? && IsLaunching(items, a.id)
    ensures EndsRight(cfg, start, snaps, now, items, a)
  {
    hide StraysAt;
    assert EndsRightAt(cfg, start, snaps, now, items, Find(items, a.id), a);
  }

  lemma AsideEndsRight(cfg: Config, start: seq<Item>, snaps: map<Id, Snapshot>, now: int, items: seq<Item>, next: seq<Item>, k: nat, a: Action)
    requires k < |items| == |next| == |start| && Moving(a) && !a.Launch?
    requires next[k] == items[k] || (Launchable(items[k].state) && Launchable(next[k].state))
    requires EndsRightAt(cfg, start, snaps, now, items, k, a)
    requires StraysAt(cfg, start, k, snaps, now) ==> EndsAstray(cfg, start[k], items[k])
    ensures EndsRightAt(cfg, start, snaps, now, next, k, a)
  {
    hide StraysAt;
  }

  // ---- One execution ----------------------------------------------------------------------

  /** An execution leaves the state and the rebase attempts of the item. */
  predicate Unmoved(it: Item, next: Item) {
    next.id == it.id && next.state == it.state && next.rebase.attempts == it.rebase.attempts
  }

  lemma QuietUnmoved(cfg: Config, items: seq<Item>, it: Item, action: Action, answers: Answers, now: int)
    requires !Moving(action)
    ensures var move := ExecuteAction(cfg, items, it, action, answers, now); move.Moved? && Unmoved(it, move.item)
  {
  }

  /** An execution as far as one item sees it. */
  lemma ExecuteAt(cfg: Config, items: seq<Item>, k: nat, t: Trial)
    requires DistinctIds(items) && k < |items|
    ensures var s := Execute(cfg, items, t.action, t.answers, t.now);
      && (items[k].id == t.action.id ==>
            (s.Crash? <==> ExecuteAction(cfg, items, items[k], t.action, t.answers, t.now).Illegal?))
      && (s.Sweep? && items[k].id == t.action.id ==>
            var move := ExecuteAction(cfg, items, items[k], t.action, t.answers, t.now);
            move.Moved? && (move.item.id == items[k].id ==> Unmoved(move.item, s.items[k])))
      && (s.Sweep? && items[k].id != t.action.id ==> Unmoved(items[k], s.items[k]))
  {
    hide ExecuteAction, Merges;
    FindAt(items, t.action.id);
    if items[k].id == t.action.id {
      FindUnique(items, k);
    }
  }

  lemma FindAt(items: seq<Item>, id: Id)
    ensures Find(items, id) >= 0 ==> items[Find(items, id)].id == id
  {
  }

  /** Executing an action keeps the id of its item. */
  lemma ActionKeepsId(cfg: Config, items: seq<Item>, it: Item, action: Action, answers: Answers, now: int)
    ensures var move := ExecuteAction(cfg, items, it, action, answers, now); move.Moved? ==> move.item.id == it.id
  {
    hide Transition, ExecuteLaunch, ExecuteMerge;
    TransitionsKeepIds(now);
    match action {
      case Launch(_, base) => LaunchKeepsId(cfg, items, it, base, answers, now);
      case Merge(_, pr, _) => MergeKeepsId(cfg, items, it, pr, answers, now);
      case _ =>
    }
  }

  predicate SameId(it: Item, move: Move) {
    move.Moved? ==> move.item.id == it.id
  }

  lemma TransitionsKeepIds(now: int)
    ensures forall it: Item, to: State :: SameId(it, Transition(it, to, now))
  {
  }

  lemma LaunchKeepsId(cfg: Config, items: seq<Item>, it: Item, base: Ref, answers: Answers, now: int)
    ensures SameId(it, ExecuteLaunch(cfg, items, it, base, answers, now))
  {
    hide Transition, BaseGone;
    TransitionsKeepIds(now);
  }

  lemma MergeKeepsId(cfg: Config, items: seq<Item>, it: Item, pr: Ref, answers: Answers, now: int)
    ensures SameId(it, ExecuteMerge(cfg, items, it, pr, answers, now))
  {
    hide Transition, BaseGone, WasRecentlyUnstacked, ExpectedBase;
    TransitionsKeepIds(now);
  }

  // ---- A merge that finds its item stuck ---------------------------------------------------

  /** What GitHub answers to the merge makes executeMerge move the item, which a stuck one cannot. */
  predicate MovesStuck(cfg: Config, items: seq<Item>, it: Item, pr: Ref, answers: Answers) {
    var expected := ExpectedBase(items, it);
    && (pr.Ref? || it.pr.number.Ref?)
    && match answers.merge.base
       case Unreachable => false
       case BaseUnknown => false
       case AlreadyMerged => true
       case Unchecked => AttemptMovesStuck(cfg, items, it, expected, answers)
       case BaseIs(actual) => actual != expected || AttemptMovesStuck(cfg, items, it, expected, answers)
  }

  /** The merge succeeded, is to be tried again, or failed with attempts left. */
  predicate AttemptMovesStuck(cfg: Config, items: seq<Item>, it: Item, expected: Base, answers: Answers) {
    && expected.DefaultBranch?
    && (|| answers.merge.merged || !answers.merge.mergeable || answers.merge.blocked || WasRecentlyUnstacked(items, it)
        || it.mergeFailCount + 1 < cfg.maxMergeRetries)
  }

  lemma StuckMergeThrowsExactly(cfg: Config, items: seq<Item>, it: Item, pr: Ref, answers: Answers, now: int)
    requires it.state.Stuck?
    ensures ExecuteMerge(cfg, items, it, pr, answers, now).Illegal? <==> MovesStuck(cfg, items, it, pr, answers)
  {
    hide Enter, BaseGone;
  }

  /** A merge that finds its item merging, or back in CI, never throws. */
  lemma LiveMergeNeverThrows(cfg: Config, items: seq<Item>, it: Item, pr: Ref, answers: Answers, now: int)
    requires it.state.Merging? || it.state.CiPending?
    ensures ExecuteMerge(cfg, items, it, pr, answers, now).Moved?
  {
    hide Enter, BaseGone, WasRecentlyUnstacked;
  }

  // ---- A whole list -----------------------------------------------------------------------

  /** No trial of the run moves the item with this id. */
  predicate NoMoves(run: seq<Trial>, id: Id) {
    forall i :: 0 <= i < |run| ==> !(Moving(run[i].action) && run[i].action.id == id)
  }

  lemma AllLast(cfg: Config, items: seq<Item>, run: seq<Trial>, n: nat)
    requires n < |run|
    ensures var before := ExecuteAll(cfg, items, run[..n]);
      ExecuteAll(cfg, items, run[..n + 1])
        == if before.Crash? then Crash else Execute(cfg, before.items, run[n].action, run[n].answers, run[n].now)
  {
    hide Execute;
    assert run[..n + 1][..n] == run[..n];
  }

  /** Executing keeps the ids, so every item can be followed by its index. */
  lemma ExecuteKeepsIds(cfg: Config, items: seq<Item>, t: Trial)
    requires DistinctIds(items) && Execute(cfg, items, t.action, t.answers, t.now).Sweep?
    ensures var s := Execute(cfg, items, t.action, t.answers, t.now); SameIds(items, s.items) && DistinctIds(s.items)
  {
    hide Execute, ExecuteAction, DistinctIds;
    var s := Execute(cfg, items, t.action, t.answers, t.now);
    forall k | 0 <= k < |items| ensures s.items[k].id == items[k].id {
      ExecuteAt(cfg, items, k, t);
      ActionKeepsId(cfg, items, items[k], t.action, t.answers, t.now);
    }
    IdsDistinct(items, s.items);
  }

  lemma IdsDistinct(items: seq<Item>, next: seq<Item>)
    requires DistinctIds(items) && SameIds(items, next)
    ensures DistinctIds(next)
  {
  }

  lemma {:induction false} RunKeepsIds(cfg: Config, items: seq<Item>, run: seq<Trial>, n: nat)
    requires DistinctIds(items) && n <= |run| && ExecuteAll(cfg, items, run[..n]).Sweep?
    ensures var s := ExecuteAll(cfg, items, run[..n]); SameIds(items, s.items) && DistinctIds(s.items)
  {
    hide Execute, DistinctIds;
    if n > 0 {
      AllLast(cfg, items, run, n - 1);
      RunKeepsIds(cfg, items, run, n - 1);
      ExecuteKeepsIds(cfg, ExecuteAll(cfg, items, run[..n - 1]).items, run[n - 1]);
    }
  }

  /** As long as no action moved the item, it is where the poll left it. */
  lemma {:induction false} StaysInPlace(cfg: Config, items: seq<Item>, run: seq<Trial>, n: nat, k: nat)
    requires DistinctIds(items) && n <= |run| && k < |items| && ExecuteAll(cfg, items, run[..n]).Sweep?
    requires NoMoves(run[..n], items[k].id)
    ensures Unmoved(items[k], ExecuteAll(cfg, items, run[..n]).items[k])
  {
    hide Execute, DistinctIds, ExecuteAction;
    if n > 0 {
      AllLast(cfg, items, run, n - 1);
      assert forall i :: 0 <= i < n - 1 ==> run[..n - 1][i] == run[..n][i];
      StaysInPlace(cfg, items, run, n - 1, k);
      RunKeepsIds(cfg, items, run, n - 1);
      var before := ExecuteAll(cfg, items, run[..n - 1]).items;
      var t := run[n - 1];
      assert run[..n][n - 1] == t;
      ExecuteAt(cfg, before, k, t);
      if before[k].id == t.action.id {
        QuietUnmoved(cfg, before, before[k], t.action, t.answers, t.now);
      }
    }
  }

  /** The trial is a rebase request of the item that gives up. */
  predicate GivesUpAt(cfg: Config, items: seq<Item>, run: seq<Trial>, m: nat, k: nat)
    requires m < |run| && k < |items|
  {
    var before := ExecuteAll(cfg, items, run[..m]);
    && before.Sweep? && run[m].action.DaemonRebase? && run[m].action.id == items[k].id
    && GivesUp(cfg, before.items[k], run[m].action.escalateToRebaser, run[m].answers)
  }

  /** After its rebase request an item that was about to merge is stuck, or still merges, or is back in CI. */
  predicate AfterRebase(cfg: Config, items: seq<Item>, run: seq<Trial>, m: nat, k: nat, state: State)
    requires m < |run| && k < |items|
  {
    if GivesUpAt(cfg, items, run, m, k) then state.Stuck? else state.Merging? || state.CiPending?
  }

  lemma {:induction false} StaysAfterRebase(cfg: Config, items: seq<Item>, run: seq<Trial>, m: nat, n: nat, k: nat)
    requires DistinctIds(items) && m < n <= |run| && k < |items| && ExecuteAll(cfg, items, run[..n]).Sweep?
    requires items[k].state.Merging? && run[m].action.DaemonRebase? && run[m].action.id == items[k].id
    requires forall i :: 0 <= i < n && i != m ==> !(Moving(run[i].action) && run[i].action.id == items[k].id)
    ensures AfterRebase(cfg, items, run, m, k, ExecuteAll(cfg, items, run[..n]).items[k].state)
  {
    hide Execute, DistinctIds, ExecuteAction, GivesUp;
    AllLast(cfg, items, run, n - 1);
    RunKeepsIds(cfg, items, run, n - 1);
    var before := ExecuteAll(cfg, items, run[..n - 1]).items;
    var t := run[n - 1];
    ExecuteAt(cfg, before, k, t);
    if n == m + 1 {
      StaysInPlace(cfg, items, run, m, k);
      RebaseOfMerging(cfg, before, before[k], t);
      ActionKeepsId(cfg, before, before[k], t.action, t.answers, t.now);
    } else {
      StaysAfterRebase(cfg, items, run, m, n - 1, k);
      if before[k].id == t.action.id {
        QuietUnmoved(cfg, before, before[k], t.action, t.answers, t.now);
      }
    }
  }

  lemma RebaseOfMerging(cfg: Config, items: seq<Item>, it: Item, t: Trial)
    requires it.state.Merging? && t.action.DaemonRebase?
    ensures var move := ExecuteAction(cfg, items, it, t.action, t.answers, t.now);
      && move.Moved?
      && if GivesUp(cfg, it, t.action.escalateToRebaser, t.answers) then move.item.state.Stuck?
         else move.item.state.Merging? || move.item.state.CiPending?
  {
    hide ExecuteDaemonRebase;
    RebaseWhileMerging(cfg, it, t.action.escalateToRebaser, t.answers, t.now);
  }

  /** The merge of a stray that its rebase request got stuck, with answers that move it. */
  predicate MergeThrowsAt(cfg: Config, items: seq<Item>, run: seq<Trial>, n: nat, k: nat)
    requires n < |run| && k < |items|
  {
    var before := ExecuteAll(cfg, items, run[..n]);
    && before.Sweep? && run[n].action.Merge? && run[n].action.id == items[k].id
    && (exists m :: 0 <= m < n && GivesUpAt(cfg, items, run, m, k))
    && MovesStuck(cfg, before.items, before.items[k], run[n].action.pr, run[n].answers)
  }

  /** Trial `n` throws: the rebase request of a stray gives up while the new review runs, or its merge finds it stuck. */
  predicate ThrowsAt(cfg: Config, start: seq<Item>, snaps: map<Id, Snapshot>, now: int, items: seq<Item>, run: seq<Trial>, n: nat)
    requires n < |run| && |start| == |items|
  {
    exists k :: 0 <= k < |items| && StraysAt(cfg, start, k, snaps, now)
      && if cfg.skipReview then MergeThrowsAt(cfg, items, run, n, k) else GivesUpAt(cfg, items, run, n, k)
  }

  /** The action of a trial is in place, or its item is a stray; the item it names is at index `k`. */
  lemma Target(cfg: Config, start: seq<Item>, snaps: map<Id, Snapshot>, now: int, items: seq<Item>, actions: seq<Action>,
               order: seq<nat>, run: seq<Trial>, n: nat) returns (k: nat)
    requires Executable(cfg, start, snaps, now, items, actions) && Executes(actions, order, run) && n < |run| && Moving(run[n].action)
    ensures k < |items| && items[k].id == run[n].action.id && EndsRightAt(cfg, start, snaps, now, items, k, run[n].action)
    ensures StraysAt(cfg, start, k, snaps, now) ==> EndsAstray(cfg, start[k], items[k])
  {
    hide StraysAt, EndsRightAt, EndsAstray;
    assert run[n].action in actions;
    assert EndsRight(cfg, start, snaps, now, items, run[n].action);
    k :| 0 <= k < |items| && items[k].id == run[n].action.id && EndsRightAt(cfg, start, snaps, now, items, k, run[n].action);
  }

  /** Two trials that move one item are its rebase request and its merge. */
  lemma TwoTrials(actions: seq<Action>, order: seq<nat>, run: seq<Trial>, i: nat, j: nat)
    requires OneMoveEach(actions) && Executes(actions, order, run) && i < |run| && j < |run| && i != j
    requires Moving(run[i].action) && Moving(run[j].action) && run[i].action.id == run[j].action.id
    ensures (run[i].action.Merge? && run[j].action.DaemonRebase?) || (run[i].action.DaemonRebase? && run[j].action.Merge?)
  {
    assert order[i] != order[j];
    if order[i] < order[j] {
      assert actions[order[i]] == run[i].action;
    }
  }

  lemma RebaseThrowsAt(cfg: Config, items: seq<Item>, it: Item, t: Trial)
    requires t.action.DaemonRebase?
    ensures var move := ExecuteAction(cfg, items, it, t.action, t.answers, t.now);
      && (it.state.Reviewing? ==> (move.Illegal? <==> GivesUp(cfg, it, t.action.escalateToRebaser, t.answers)))
      && (it.state.Merging? || it.state.CiPassed? ==> move.Moved?)
  {
    hide ExecuteDaemonRebase;
    DaemonRebaseThrowsExactly(cfg, it, t.action.escalateToRebaser, t.answers, t.now);
  }

  /** What may be assumed about a trial that is about to be executed. */
  predicate Ready(cfg: Config, start: seq<Item>, snaps: map<Id, Snapshot>, now: int, items: seq<Item>, actions: seq<Action>,
                  order: seq<nat>, run: seq<Trial>, n: nat)
  {
    && Executable(cfg, start, snaps, now, items, actions) && Executes(actions, order, run) && MergesLast(run)
    && n < |run| && ExecuteAll(cfg, items, run[..n]).Sweep?
  }

  /** The execution of trial `n`, as the item at index `k` sees it. */
  predicate Fails(cfg: Config, items: seq<Item>, run: seq<Trial>, n: nat)
    requires n < |run|
  {
    var before := ExecuteAll(cfg, items, run[..n]);
    before.Sweep? && Execute(cfg, before.items, run[n].action, run[n].answers, run[n].now).Crash?
  }

  lemma FailsAt(cfg: Config, items: seq<Item>, run: seq<Trial>, n: nat, k: nat)
    requires DistinctIds(items) && n < |run| && k < |items| && items[k].id == run[n].action.id
    requires ExecuteAll(cfg, items, run[..n]).Sweep?
    ensures var before := ExecuteAll(cfg, items, run[..n]).items;
      && |before| == |items|
      && (Fails(cfg, items, run, n) <==> ExecuteAction(cfg, before, before[k], run[n].action, run[n].answers, run[n].now).Illegal?)
  {
    hide Execute, ExecuteAction, DistinctIds;
    RunKeepsIds(cfg, items, run, n);
    ExecuteAt(cfg, ExecuteAll(cfg, items, run[..n]).items, k, run[n]);
  }

  /** Only the one item the trial names can make it throw. */
  lemma ThrowsHere(cfg: Config, start: seq<Item>, snaps: map<Id, Snapshot>, now: int, items: seq<Item>, run: seq<Trial>, n: nat, k: nat)
    requires |start| == |items| && DistinctIds(items) && n < |run| && k < |items| && items[k].id == run[n].action.id
    ensures ThrowsAt(cfg, start, snaps, now, items, run, n) <==>
      StraysAt(cfg, start, k, snaps, now) && if cfg.skipReview then MergeThrowsAt(cfg, items, run, n, k) else GivesUpAt(cfg, items, run, n, k)
  {
    hide StraysAt, ExecuteAll, GivesUp, MovesStuck;
  }

  lemma QuietNeverFails(cfg: Config, start: seq<Item>, snaps: map<Id, Snapshot>, now: int, items: seq<Item>, run: seq<Trial>, n: nat)
    requires |start| == |items| && DistinctIds(items) && n < |run| && !Moving(run[n].action) && ExecuteAll(cfg, items, run[..n]).Sweep?
    ensures !Fails(cfg, items, run, n) && !ThrowsAt(cfg, start, snaps, now, items, run, n)
  {
    hide StraysAt, ExecuteAction, ExecuteAll;
    var before := ExecuteAll(cfg, items, run[..n]).items;
    var k := Find(before, run[n].action.id);
    if k >= 0 {
      QuietUnmoved(cfg, before, before[k], run[n].action, run[n].answers, run[n].now);
    }
  }

  /** A first move of an item that is at home for it. */
  lemma HomeNeverFails(cfg: Config, items: seq<Item>, run: seq<Trial>, n: nat, k: nat)
    requires DistinctIds(items) && n < |run| && k < |items| && items[k].id == run[n].action.id
    requires ExecuteAll(cfg, items, run[..n]).Sweep? && NoMoves(run[..n], items[k].id) && AtHome(items[k], run[n].action)
    ensures !Fails(cfg, items, run, n)
  {
    hide ExecuteAction, ExecuteAll, DistinctIds, NoMoves;
    StaysInPlace(cfg, items, run, n, k);
    FailsAt(cfg, items, run, n, k);
    var before := ExecuteAll(cfg, items, run[..n]).items;
    NeverThrowsAtHome(cfg, before, before[k], run[n].action, run[n].answers, run[n].now);
  }

  lemma FirstMoveFails(cfg: Config, start: seq<Item>, snaps: map<Id, Snapshot>, now: int, items: seq<Item>, actions: seq<Action>,
                       order: seq<nat>, run: seq<Trial>, n: nat, k: nat)
    requires Ready(cfg, start, snaps, now, items, actions, order, run, n)
    requires k < |items| && items[k].id == run[n].action.id && EndsRightAt(cfg, start, snaps, now, items, k, run[n].action)
    requires StraysAt(cfg, start, k, snaps, now) ==> EndsAstray(cfg, start[k], items[k])
    requires NoMoves(run[..n], items[k].id)
    ensures Fails(cfg, items, run, n) <==> ThrowsAt(cfg, start, snaps, now, items, run, n)
  {
    hide StraysAt, ExecuteAction, ExecuteAll, GivesUp, MovesStuck, DistinctIds, Executable, Executes, MergesLast, Fails, ThrowsAt, Moving;
    assert DistinctIds(items) && |start| == |items| by {
      FromReady(cfg, start, snaps, now, items, actions, order, run, n);
    }
    ThrowsHere(cfg, start, snaps, now, items, run, n, k);
    NobodyGaveUp(cfg, items, run, n, k);
    if StraysAt(cfg, start, k, snaps, now) && run[n].action.DaemonRebase? {
      StaysInPlace(cfg, items, run, n, k);
      FailsAt(cfg, items, run, n, k);
      var before := ExecuteAll(cfg, items, run[..n]).items;
      RebaseThrowsAt(cfg, before, before[k], run[n]);
    } else {
      HomeNeverFails(cfg, items, run, n, k);
    }
  }

  lemma FromReady(cfg: Config, start: seq<Item>, snaps: map<Id, Snapshot>, now: int, items: seq<Item>, actions: seq<Action>,
                  order: seq<nat>, run: seq<Trial>, n: nat)
    requires Ready(cfg, start, snaps, now, items, actions, order, run, n)
    ensures DistinctIds(items) && |start| == |items| && OneMoveEach(actions)
  {
  }

  lemma NobodyGaveUp(cfg: Config, items: seq<Item>, run: seq<Trial>, n: nat, k: nat)
    requires n <= |run| && k < |items| && NoMoves(run[..n], items[k].id)
    ensures forall m :: 0 <= m < n ==> !GivesUpAt(cfg, items, run, m, k)
  {
    hide ExecuteAll, GivesUp;
    forall m | 0 <= m < n ensures !GivesUpAt(cfg, items, run, m, k) {
      assert run[..n][m] == run[m];
    }
  }

  /** The merge of a stray, after its rebase request. */
  lemma SecondMoveFails(cfg: Config, start: seq<Item>, snaps: map<Id, Snapshot>, now: int, items: seq<Item>, actions: seq<Action>,
                        order: seq<nat>, run: seq<Trial>, n: nat, k: nat, m: nat)
    requires Ready(cfg, start, snaps, now, items, actions, order, run, n)
    requires k < |items| && items[k].id == run[n].action.id && StraysAt(cfg, start, k, snaps, now) && cfg.skipReview
    requires run[n].action.Merge? && items[k].state.Merging?
    requires m < n && run[m].action.DaemonRebase? && run[m].action.id == items[k].id
    ensures Fails(cfg, items, run, n) <==> ThrowsAt(cfg, start, snaps, now, items, run, n)
  {
    hide StraysAt, ExecuteAction, ExecuteAll, GivesUp, MovesStuck, DistinctIds, Executable, MergesLast, Fails, ThrowsAt;
    FromReady(cfg, start, snaps, now, items, actions, order, run, n);
    ThrowsHere(cfg, start, snaps, now, items, run, n, k);
    forall i | 0 <= i < n && i != m && Moving(run[i].action) && run[i].action.id == items[k].id ensures false {
      TwoTrials(actions, order, run, i, m);
      TwoTrials(actions, order, run, i, n);
    }
    StaysAfterRebase(cfg, items, run, m, n, k);
    FailsAt(cfg, items, run, n, k);
    var before := ExecuteAll(cfg, items, run[..n]).items;
    MergeFails(cfg, before, before[k], run[n]);
  }

  lemma MergeFails(cfg: Config, items: seq<Item>, it: Item, t: Trial)
    requires t.action.Merge? && (it.state.Stuck? || it.state.Merging? || it.state.CiPending?)
    ensures ExecuteAction(cfg, items, it, t.action, t.answers, t.now).Illegal? <==>
      it.state.Stuck? && MovesStuck(cfg, items, it, t.action.pr, t.answers)
  {
    hide ExecuteMerge, MovesStuck;
    if it.state.Stuck? {
      StuckMergeThrowsExactly(cfg, items, it, t.action.pr, t.answers, t.now);
    } else {
      LiveMergeNeverThrows(cfg, items, it, t.action.pr, t.answers, t.now);
    }
  }

  lemma TrialFailsExactly(cfg: Config, start: seq<Item>, snaps: map<Id, Snapshot>, now: int, items: seq<Item>, actions: seq<Action>,
                          order: seq<nat>, run: seq<Trial>, n: nat)
    requires Ready(cfg, start, snaps, now, items, actions, order, run, n)
    ensures DistinctIds(items) && |start| == |items|
    ensures Fails(cfg, items, run, n) <==> ThrowsAt(cfg, start, snaps, now, items, run, n)
  {
    hide StraysAt, ExecuteAll, DistinctIds, Executable, Fails, ThrowsAt, EndsRightAt, EndsAstray;
    FromReady(cfg, start, snaps, now, items, actions, order, run, n);
    if !Moving(run[n].action) {
      QuietNeverFails(cfg, start, snaps, now, items, run, n);
    } else {
      var k := Target(cfg, start, snaps, now, items, actions, order, run, n);
      if NoMoves(run[..n], items[k].id) {
        FirstMoveFails(cfg, start, snaps, now, items, actions, order, run, n, k);
      } else {
        var m :| 0 <= m < |run[..n]| && Moving(run[..n][m].action) && run[..n][m].action.id == items[k].id;
        TwoTrials(actions, order, run, m, n);
        var l := Target(cfg, start, snaps, now, items, actions, order, run, m);
        SameIndex(items, k, l);
        StrayAtMerge(cfg, start, snaps, now, items, k, run[m].action, run[n].action);
        SecondMoveFails(cfg, start, snaps, now, items, actions, order, run, n, k, m);
      }
    }
  }

  lemma SameIndex(items: seq<Item>, k: nat, l: nat)
    requires DistinctIds(items) && k < |items| && l < |items| && items[k].id == items[l].id
    ensures k == l
  {
  }

  /** An item that gets both a rebase request and a merge is a stray about to merge. */
  lemma StrayAtMerge(cfg: Config, start: seq<Item>, snaps: map<Id, Snapshot>, now: int, items: seq<Item>, k: nat, rebase: Action, merge: Action)
    requires k < |items| == |start| && rebase.DaemonRebase? && merge.Merge?
    requires EndsRightAt(cfg, start, snaps, now, items, k, rebase) && EndsRightAt(cfg, start, snaps, now, items, k, merge)
    requires StraysAt(cfg, start, k, snaps, now) ==> EndsAstray(cfg, start[k], items[k])
    ensures StraysAt(cfg, start, k, snaps, now) && cfg.skipReview && items[k].state.Merging?
  {
    hide StraysAt;
  }

  lemma {:induction false} CrashesAt(cfg: Config, items: seq<Item>, run: seq<Trial>)
    ensures ExecuteAll(cfg, items, run).Crash? <==> exists n :: 0 <= n < |run| && Fails(cfg, items, run, n)
  {
    hide Execute;
    if run != [] {
      var last := |run| - 1;
      var earlier := run[..last];
      CrashesAt(cfg, items, earlier);
      assert forall n :: 0 <= n < last ==> earlier[..n] == run[..n] && earlier[n] == run[n];
      forall n | 0 <= n < last ensures Fails(cfg, items, earlier, n) <==> Fails(cfg, items, run, n) {
      }
      AllLast(cfg, items, run, last);
      assert run[..last + 1] == run;
      if ExecuteAll(cfg, items, run).Crash? && ExecuteAll(cfg, items, earlier).Sweep? {
        assert Fails(cfg, items, run, last);
      }
    }
  }

  /** A poll, with its launches resolved through the broker. */
  function Polled(cfg: Config, items: seq<Item>, reevaluate: bool, snaps: map<Id, Snapshot>, readyIds: set<Id>, crew: Crew, now: int): Sweep {
    var r := ProcessTransitions(cfg, items, reevaluate, snaps, readyIds, now);
    if r.Crash? then Crash else ResolveClaims(r.items, r.actions, crew, now)
  }

  lemma PolledExecutable(cfg: Config, items: seq<Item>, reevaluate: bool, snaps: map<Id, Snapshot>, readyIds: set<Id>, crew: Crew, now: int)
    requires DistinctIds(items) && AllParkedOk(items) && Polled(cfg, items, reevaluate, snaps, readyIds, crew, now).Sweep?
    ensures var s := Polled(cfg, items, reevaluate, snaps, readyIds, crew, now);
      Executable(cfg, items, snaps, now, s.items, s.actions)
  {
    hide ProcessTransitions, ResolveClaims, ParkedOk, Executable, LaunchTargets, LaunchesIn, AskedOnce, MergeIds, Aside, Replaced;
    var r := ProcessTransitions(cfg, items, reevaluate, snaps, readyIds, now);
    var s := Polled(cfg, items, reevaluate, snaps, readyIds, crew, now);
    PollExecutable(cfg, items, reevaluate, snaps, readyIds, now);
    assert DistinctIds(r.items) by {
      ExecutableIds(cfg, items, snaps, now, r.items, r.actions);
    }
    ResolutionReplaces(r.items, r.actions, crew, now);
    ResolvedExecutable(cfg, items, snaps, now, r.items, r.actions, s.items, s.actions);
  }

  lemma ExecutableIds(cfg: Config, start: seq<Item>, snaps: map<Id, Snapshot>, now: int, items: seq<Item>, actions: seq<Action>)
    requires Executable(cfg, start, snaps, now, items, actions)
    ensures DistinctIds(items)
  {
  }

  /**
   * Main result: executing what a poll returned, with its launches resolved through the broker or
   * without a crew, each action at most once and merges after the rebase requests, throws exactly
   * when some item's stalled reviewer was recovered with a rebase request that gives up, and either a
   * new review runs, or reviews are skipped and its merge comes with answers that move the item,
   * which is stuck by then.
   */
  lemma PollRunCrashesExactly(cfg: Config, items: seq<Item>, reevaluate: bool, snaps: map<Id, Snapshot>, readyIds: set<Id>, crew: Crew,
                              now: int, order: seq<nat>, run: seq<Trial>)
    requires DistinctIds(items) && AllParkedOk(items) && Polled(cfg, items, reevaluate, snaps, readyIds, crew, now).Sweep?
    requires Executes(Polled(cfg, items, reevaluate, snaps, readyIds, crew, now).actions, order, run) && MergesLast(run)
    ensures var s := Polled(cfg, items, reevaluate, snaps, readyIds, crew, now);
      && |s.items| == |items|
      && (ExecuteAll(cfg, s.items, run).Crash? <==>
            exists n :: 0 <= n < |run| && ThrowsAt(cfg, items, snaps, now, s.items, run, n))
  {
    hide Polled, ExecuteAll, ThrowsAt, Executes, MergesLast, ParkedOk, Executable, Fails;
    var s := Polled(cfg, items, reevaluate, snaps, readyIds, crew, now);
    PolledExecutable(cfg, items, reevaluate, snaps, readyIds, crew, now);
    RunCrashesExactly(cfg, items, snaps, now, s.items, s.actions, order, run);
  }

  /** The same for any actions that can be executed in this sense. */
  lemma RunCrashesExactly(cfg: Config, start: seq<Item>, snaps: map<Id, Snapshot>, now: int, items: seq<Item>, actions: seq<Action>,
                          order: seq<nat>, run: seq<Trial>)
    requires Executable(cfg, start, snaps, now, items, actions) && Executes(actions, order, run) && MergesLast(run)
    ensures |start| == |items|
    ensures ExecuteAll(cfg, items, run).Crash? <==> exists n :: 0 <= n < |run| && ThrowsAt(cfg, start, snaps, now, items, run, n)
  {
    hide ExecuteAll, Executes, MergesLast, Executable, DistinctIds;
    assert |start| == |items| by {
      SameLength(cfg, start, snaps, now, items, actions);
    }
    CrashesAt(cfg, items, run);
    forall n | 0 <= n < |run| && ExecuteAll(cfg, items, run[..n]).Sweep?
      ensures Fails(cfg, items, run, n) <==> ThrowsAt(cfg, start, snaps, now, items, run, n)
    {
      TrialFailsExactly(cfg, start, snaps, now, items, actions, order, run, n);
    }
  }

  lemma SameLength(cfg: Config, start: seq<Item>, snaps: map<Id, Snapshot>, now: int, items: seq<Item>, actions: seq<Action>)
    requires Executable(cfg, start, snaps, now, items, actions)
    ensures |start| == |items|
  {
  }

  /** The attempts that count are those before the poll. */
  lemma StrayAttempts(cfg: Config, start: seq<Item>, items: seq<Item>, run: seq<Trial>, m: nat, k: nat)
    requires DistinctIds(items) && |start| == |items| && m <= |run| && k < |items| && Astray(cfg, start[k], items[k])
    requires ExecuteAll(cfg, items, run[..m]).Sweep? && NoMoves(run[..m], items[k].id)
    ensures ExecuteAll(cfg, items, run[..m]).items[k].rebase.attempts == start[k].rebase.attempts
  {
    hide ExecuteAll, DistinctIds, NoMoves;
    StaysInPlace(cfg, items, run, m, k);
  }

  // ---- An input ---------------------------------------------------------------------------

  /** With reviews skipped, a conflict and a reviewer that never answered start the merge behind the rebase request. */
  lemma StrayMerges(cfg: Config, it: Item, snap: Snapshot, now: int)
    requires cfg.skipReview && cfg.mergeStrategy.Auto? && cfg.inboxWaitExpireMs > 0 && now > cfg.inboxWaitExpireMs && cfg.maxReviewRounds > 0
    requires it == NewItem(it.workItem, 0).(state := ReviewPending, rebase := it.rebase, pr := it.pr)
    requires it.rebase.lastNudgeAt.Undefined? && !it.rebase.requested && it.pr.lastCommitTime.Undefined?
    requires !it.workItem.requiresManualReview && snap == NoSnapshot().(isMergeable := No, hasReviewerComment := No)
    ensures var step := TransitionItem(cfg, it, snap, now);
      && step.Step? && step.item.state.Merging? && step.item.rebase.attempts == it.rebase.attempts
      && step.item.session == it.session.(parked := false) && step.item.pr == it.pr && step.item.id == it.id
      && step.actions == [DaemonRebase(it.id, false), Merge(it.id, it.pr.number, false)]
  {
    hide Seen;
    SeenStands(it, snap, now);
    NudgedSeen(it, snap, now);
    var seen := Seen(it, snap, now);
    var plan := PlanRebaseConflictAction(cfg, seen, now);
    var mid := ForgetReview(plan.item);
    var step := PassAndEvaluate(cfg, mid, snap, [] + plan.actions, now);
    assert Handle(cfg, seen, snap, now) == NudgeOrRecoverReview(cfg, seen, snap, [], now) == step;
    assert plan.actions == [DaemonRebase(it.id, false)];
    assert step.actions == [DaemonRebase(it.id, false), Merge(it.id, it.pr.number, false)];
    FeedbackTiming.NoBatchNoTail(step.item, snap, now);
    assert step.actions + [] == step.actions;
  }

  lemma NudgedSeen(it: Item, snap: Snapshot, now: int)
    requires snap == NoSnapshot().(isMergeable := No, hasReviewerComment := No) && !it.rebase.lastNudgeAt.At?
    ensures Seen(it, snap, now) == it
  {
    assert HumanComments([]) == [];
  }

  /** The rebase attempts are used up: executing the rebase request gets the item stuck, and its merge throws once GitHub merged it. */
  lemma MergeAfterRebaseThrows(cfg: Config, w: WorkItem, now: int, failed: Answers, merged: Answers)
    requires cfg.skipReview && cfg.mergeStrategy.Auto? && cfg.inboxWaitExpireMs > 0 && now > cfg.inboxWaitExpireMs && cfg.maxReviewRounds > 0
    requires !w.requiresManualReview && !failed.rebased && merged.merge.base.Unchecked? && merged.merge.merged
    ensures var added := NewItem(w, 0);
      var waiting := added.(state := ReviewPending, pr := added.pr.(number := Ref(1)),
                            rebase := added.rebase.(attempts := cfg.maxRebaseAttempts));
      var step := TransitionItem(cfg, waiting, NoSnapshot().(isMergeable := No, hasReviewerComment := No), now);
      && step.Step? && step.item.state.Merging? && |step.actions| == 2
      && ExecuteAll(cfg, [step.item], [Trial(step.actions[0], failed, now), Trial(step.actions[1], merged, now)]).Crash?
  {
    hide TransitionItem, ExecuteAction, Execute, ExecuteAll;
    var added := NewItem(w, 0);
    var waiting := added.(state := ReviewPending, pr := added.pr.(number := Ref(1)),
                          rebase := added.rebase.(attempts := cfg.maxRebaseAttempts));
    var snap := NoSnapshot().(isMergeable := No, hasReviewerComment := No);
    StrayMerges(cfg, waiting, snap, now);
    var step := TransitionItem(cfg, waiting, snap, now);
    var first, second := Trial(step.actions[0], failed, now), Trial(step.actions[1], merged, now);
    var run := [first, second];
    NothingExecuted(cfg, [step.item], run);
    AllLast(cfg, [step.item], run, 0);
    AllLast(cfg, [step.item], run, 1);
    assert run[..2] == run;
    RebaseGetsStuck(cfg, step.item, first);
    var after := ExecuteAll(cfg, [step.item], run[..1]);
    StuckAlone(cfg, after.items, second);
  }

  lemma NothingExecuted(cfg: Config, items: seq<Item>, run: seq<Trial>)
    ensures ExecuteAll(cfg, items, run[..0]) == Sweep(items, [])
  {
  }

  /** Alone, without a worker and with its attempts used up, a merging item is stuck after the rebase request. */
  lemma RebaseGetsStuck(cfg: Config, it: Item, t: Trial)
    requires it.state.Merging? && t.action == DaemonRebase(it.id, false)
    requires it.rebase.attempts == cfg.maxRebaseAttempts && it.session.workspace.NoWorkspace? && !t.answers.rebased
    ensures var s := Execute(cfg, [it], t.action, t.answers, t.now);
      s.Sweep? && s.items[0].id == it.id && s.items[0].pr == it.pr && s.items[0].state.Stuck?
  {
    assert Find([it], it.id) == 0;
  }

  /** Alone and without a base branch, a stuck item throws on a merge that went through. */
  lemma StuckAlone(cfg: Config, items: seq<Item>, t: Trial)
    requires |items| == 1 && items[0].state.Stuck? && items[0].pr.baseBranch.Absent? && t.action.Merge? && t.action.id == items[0].id
    requires t.action.pr.Ref? && t.answers.merge.base.Unchecked? && t.answers.merge.merged
    ensures Execute(cfg, items, t.action, t.answers, t.now).Crash?
  {
    hide ExecuteMerge;
    FindUnique(items, 0);
    StuckMergeThrowsExactly(cfg, items, items[0], t.action.pr, t.answers, t.now);
  }
}
