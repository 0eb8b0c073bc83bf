/**
 * Crew mode: after a poll the launches are handed to the broker, which decides what this daemon
 * works on (core/orchestrate-event-loop.ts).
 */
module Claims {
  import opened OrchestratorTypes
  import opened Lifecycle
  import opened LifecycleFacts
  import opened LifecycleSteps
  import opened Poll
  import opened PollFacts
  import opened PollQueues
  import opened PollTheorems
  import opened PollBounds

  /** The crew connection while one poll's launches are resolved; a claim answers an id, or nothing. */
  datatype Crew = Alone | Disconnected | Connected(claims: seq<Ref>)

  /** hydrateState: set the state and nothing else, whatever the table says. */
  function Hydrate(items: seq<Item>, id: Id, to: State, now: int): (next: seq<Item>)
    ensures |next| == |items|
  {
    var k := Find(items, id);
    if k < 0 then items else items[k := items[k].(state := to, lastTransition := now)]
  }

  /** Every launched item goes back to ready. */
  function PutBack(items: seq<Item>, launches: seq<Action>, now: int): (next: seq<Item>)
    ensures |next| == |items|
    decreases |launches|
  {
    if launches == [] then items else PutBack(Hydrate(items, launches[0].id, Ready, now), launches[1..], now)
  }

  /** The ids the broker granted, each once, in order. */
  function Granted(claims: seq<Ref>): (ids: seq<Id>)
    ensures |ids| <= |claims|
  {
    if claims == [] then []
    else
      var last := |claims| - 1;
      var ids := Granted(claims[..last]);
      if claims[last].Ref? && claims[last].n !in ids then ids + [claims[last].n] else ids
  }

  /** A claimed item may still be launched. */
  predicate Launchable(s: State) {
    s.Queued? || s.Ready? || s.Launching?
  }

  /** Launch what the broker granted. */
  function LaunchGranted(items: seq<Item>, ids: seq<Id>, now: int): (s: Sweep)
    ensures s.Sweep? && |s.items| == |items|
    decreases |ids|
  {
    if ids == [] then Sweep(items, [])
    else
      var k := Find(items, ids[0]);
      if k < 0 || !Launchable(items[k].state) then LaunchGranted(items, ids[1..], now)
      else
        var rest := LaunchGranted(Hydrate(items, ids[0], Launching, now), ids[1..], now);
        Sweep(rest.items, [Launch(ids[0], Absent)] + rest.actions)
  }

  function WithoutLaunches(actions: seq<Action>): seq<Action> {
    if actions == [] then [] else (if actions[0].Launch? then [] else [actions[0]]) + WithoutLaunches(actions[1..])
  }

  /** One claim per launch; a missing answer counts as nothing granted. */
  function Answered(claims: seq<Ref>, launches: seq<Action>): seq<Ref> {
    if |claims| <= |launches| then claims else claims[..|launches|]
  }

  /** The launches of a poll, resolved. */
  function ResolveClaims(items: seq<Item>, actions: seq<Action>, crew: Crew, now: int): (s: Sweep)
    ensures s.Sweep? && |s.items| == |items|
  {
    var launches := LaunchesIn(actions);
    if crew.Alone? || launches == [] then Sweep(items, actions)
    else
      var back := PutBack(items, launches, now);
      if crew.Disconnected? then Sweep(back, WithoutLaunches(actions))
      else
        var granted := LaunchGranted(back, Granted(Answered(crew.claims, launches)), now);
        Sweep(granted.items, WithoutLaunches(actions) + granted.actions)
  }

  // ---- No slot is gained ------------------------------------------------------------------

  predicate IsLaunching(items: seq<Item>, id: Id) {
    Find(items, id) >= 0 && items[Find(items, id)].state.Launching?
  }

  /** The launches are for distinct items that are launching. */
  predicate LaunchTargets(items: seq<Item>, launches: seq<Action>) {
    && (forall j :: 0 <= j < |launches| ==> launches[j].Launch? && IsLaunching(items, launches[j].id))
    && forall j, k :: 0 <= j < k < |launches| ==> launches[j].id != launches[k].id
  }

  lemma HydrateFacts(items: seq<Item>, id: Id, to: State, now: int)
    requires DistinctIds(items)
    ensures var next := Hydrate(items, id, to, now);
      && SameIds(items, next) && DistinctIds(next)
      && forall other: Id :: Find(next, other) == Find(items, other)
           && (other != id && Find(items, other) >= 0 ==> next[Find(items, other)] == items[Find(items, other)])
  {
    var next := Hydrate(items, id, to, now);
    assert SameIds(items, next) && DistinctIds(next);
    forall other: Id ensures Find(next, other) == Find(items, other)
      && (other != id && Find(items, other) >= 0 ==> next[Find(items, other)] == items[Find(items, other)])
    {
      var k := Find(items, other);
      if k >= 0 {
        FindUnique(next, k);
      }
    }
  }

  lemma {:induction false} PutBackFrees(items: seq<Item>, launches: seq<Action>, now: int)
    requires DistinctIds(items) && LaunchTargets(items, launches)
    ensures var next := PutBack(items, launches, now);
      DistinctIds(next) && SameIds(items, next) && ActiveCount(next) == ActiveCount(items) - |launches|
    decreases |launches|
  {
    hide ActiveCount, Find;
    if launches != [] {
      var id := launches[0].id;
      var k := Find(items, id);
      var next := Hydrate(items, id, Ready, now);
      HydrateFacts(items, id, Ready, now);
      ActiveUpdate(items, k, next[k]);
      assert forall j :: 0 <= j < |launches[1..]| ==> launches[1..][j] == launches[j + 1];
      PutBackFrees(next, launches[1..], now);
    }
  }

  lemma {:induction false} GrantedTakes(items: seq<Item>, ids: seq<Id>, now: int)
    requires DistinctIds(items)
    ensures ActiveCount(LaunchGranted(items, ids, now).items) <= ActiveCount(items) + |ids|
    decreases |ids|
  {
    hide ActiveCount, Find;
    if ids != [] {
      var k := Find(items, ids[0]);
      if k < 0 || !Launchable(items[k].state) {
        GrantedTakes(items, ids[1..], now);
      } else {
        var next := Hydrate(items, ids[0], Launching, now);
        HydrateFacts(items, ids[0], Launching, now);
        ActiveUpdate(items, k, next[k]);
        GrantedTakes(next, ids[1..], now);
      }
    }
  }

  /** Resolving the launches of a poll through the broker never takes more slots than the poll did. */
  lemma ClaimsTakeNoSlot(items: seq<Item>, actions: seq<Action>, crew: Crew, now: int)
    requires DistinctIds(items) && LaunchTargets(items, LaunchesIn(actions))
    ensures ActiveCount(ResolveClaims(items, actions, crew, now).items) <= ActiveCount(items)
  {
    hide ActiveCount, Find, LaunchTargets;
    var launches := LaunchesIn(actions);
    if !crew.Alone? && launches != [] {
      PutBackFrees(items, launches, now);
      if crew.Connected? {
        GrantedTakes(PutBack(items, launches, now), Granted(Answered(crew.claims, launches)), now);
      }
    }
  }

  lemma {:induction false} LaunchesTarget(before: seq<Item>, after: seq<Item>, i: nat)
    requires i <= |before| && SameIds(before, after) && DistinctIds(before)
    ensures LaunchTargets(after, Launches(before, after, i))
    ensures forall a :: a in Launches(before, after, i) ==> exists k :: i <= k < |before| && before[k].id == a.id
    decreases |before| - i
  {
    hide Find;
    if i < |before| {
      LaunchesTarget(before, after, i + 1);
      FindUnique(after, i);
      var rest := Launches(before, after, i + 1);
      var all := Launches(before, after, i);
      assert all == rest || (all[1..] == rest && all[0].id == before[i].id);
    }
  }

  /** The poll and the crew together stay within the in-flight bound. */
  lemma CrewInFlightBound(cfg: Config, items: seq<Item>, reevaluate: bool, snaps: map<Id, Snapshot>, readyIds: set<Id>, crew: Crew, now: int)
    requires DistinctIds(items) && AllParkedOk(items)
    ensures var r := ProcessTransitions(cfg, items, reevaluate, snaps, readyIds, now);
      r.Sweep? ==>
        && |r.items| == |items|
        && ActiveCount(ResolveClaims(r.items, r.actions, crew, now).items)
             <= Max(cfg.maxInflight, ActiveCount(items) + Reentries(items, r.items))
  {
    hide Transitioned, Promoted, PrioritizeMergeActions, LaunchReadyItems, ItemThrows, ParkedOk, ActiveCount, Reentries, ResolveClaims, Launches, LaunchTargets;
    var r := ProcessTransitions(cfg, items, reevaluate, snaps, readyIds, now);
    if r.Sweep? {
      InFlightBound(cfg, items, reevaluate, snaps, readyIds, now);
      PollLaunchesExactly(cfg, items, reevaluate, snaps, readyIds, now);
      var ready := Promoted(cfg, Transitioned(cfg, items, reevaluate, snaps, now).items, readyIds, now);
      LaunchesTarget(ready, r.items, 0);
      ClaimsTakeNoSlot(r.items, r.actions, crew, now);
    }
  }

  // ---- Nothing else is lost ---------------------------------------------------------------

  lemma HydrateBounded(cfg: Config, items: seq<Item>, id: Id, to: State, now: int, log: seq<Action>, approvals: set<Id>)
    requires DistinctIds(items) && AllBounded(cfg, items, log, approvals)
    requires to.Ready? || to.Launching?
    requires Find(items, id) >= 0 && Launchable(items[Find(items, id)].state)
    ensures AllBounded(cfg, Hydrate(items, id, to, now), log, approvals)
  {
    hide Count, Bounded, Find;
    var k := Find(items, id);
    var next := Hydrate(items, id, to, now);
    BoundedParkedOk(cfg, items, log, approvals);
    forall j | 0 <= j < |items| ensures Bounded(cfg, next[j], log, next[j].id in approvals) {
      CountQuiet(cfg, items[j].id, []);
      assert ParkedOk(items[j]);
      BoundedStays(cfg, items[j], next[j], log, [], items[j].id in approvals);
      assert log + [] == log;
    }
  }

  lemma {:induction false} PutBackBounded(cfg: Config, items: seq<Item>, launches: seq<Action>, now: int,
                                          log: seq<Action>, approvals: set<Id>)
    requires DistinctIds(items) && LaunchTargets(items, launches) && AllBounded(cfg, items, log, approvals)
    ensures var next := PutBack(items, launches, now);
      DistinctIds(next) && SameIds(items, next) && AllBounded(cfg, next, log, approvals)
    decreases |launches|
  {
    hide AllBounded, Find;
    if launches != [] {
      var id := launches[0].id;
      var next := Hydrate(items, id, Ready, now);
      HydrateFacts(items, id, Ready, now);
      assert IsLaunching(items, id);
      HydrateBounded(cfg, items, id, Ready, now, log, approvals);
      assert forall j :: 0 <= j < |launches[1..]| ==> launches[1..][j] == launches[j + 1];
      PutBackBounded(cfg, next, launches[1..], now, log, approvals);
    }
  }

  lemma {:induction false} GrantedBounded(cfg: Config, items: seq<Item>, ids: seq<Id>, now: int, log: seq<Action>, approvals: set<Id>)
    requires DistinctIds(items) && AllBounded(cfg, items, log, approvals)
    ensures var s := LaunchGranted(items, ids, now);
      && SameIds(items, s.items) && AllBounded(cfg, s.items, log, approvals)
      && forall a :: a in s.actions ==> a.Launch?
    decreases |ids|
  {
    hide AllBounded, Find;
    if ids != [] {
      var k := Find(items, ids[0]);
      if k < 0 || !Launchable(items[k].state) {
        GrantedBounded(cfg, items, ids[1..], now, log, approvals);
      } else {
        HydrateFacts(items, ids[0], Launching, now);
        HydrateBounded(cfg, items, ids[0], Launching, now, log, approvals);
        GrantedBounded(cfg, Hydrate(items, ids[0], Launching, now), ids[1..], now, log, approvals);
      }
    }
  }

  lemma {:induction false} WithoutLaunchesCounts(cfg: Config, id: Id, actions: seq<Action>)
    ensures Count(cfg, id, WithoutLaunches(actions)).reviews == Count(cfg, id, actions).reviews
    ensures Count(cfg, id, WithoutLaunches(actions)).fixers == Count(cfg, id, actions).fixers
  {
    hide TallyOf;
    if actions != [] {
      WithoutLaunchesCounts(cfg, id, actions[1..]);
      var kept := WithoutLaunches(actions[1..]);
      assert ([actions[0]] + kept)[1..] == kept && [] + kept == kept;
      if actions[0].Launch? {
        LaunchTally(cfg, id, actions[0]);
      }
    }
  }

  lemma LaunchTally(cfg: Config, id: Id, a: Action)
    requires a.Launch?
    ensures TallyOf(cfg, id, a).reviews == 0 && TallyOf(cfg, id, a).fixers == 0
  {
  }

  /** Resolution exchanges launches for launches: all counts stay. */
  lemma ResolvedCounts(cfg: Config, id: Id, log: seq<Action>, actions: seq<Action>, launches: seq<Action>)
    requires forall a :: a in launches ==> a.Launch?
    ensures var resolved := WithoutLaunches(actions) + launches;
      && Count(cfg, id, log + resolved).reviews == Count(cfg, id, log + actions).reviews
      && Count(cfg, id, log + resolved).fixers == Count(cfg, id, log + actions).fixers
  {
    hide Count;
    CountConcat(cfg, id, log, actions);
    CountConcat(cfg, id, log, WithoutLaunches(actions) + launches);
    CountConcat(cfg, id, WithoutLaunches(actions), launches);
    WithoutLaunchesCounts(cfg, id, actions);
    LaunchesUnconcern(cfg, id, launches);
  }

  /** Resolving the launches through the broker keeps every bound. */
  lemma ResolveBounded(cfg: Config, items: seq<Item>, actions: seq<Action>, crew: Crew, now: int, log: seq<Action>, approvals: set<Id>)
    requires DistinctIds(items) && LaunchTargets(items, LaunchesIn(actions)) && AllBounded(cfg, items, log + actions, approvals)
    ensures var r := ResolveClaims(items, actions, crew, now);
      SameIds(items, r.items) && AllBounded(cfg, r.items, log + r.actions, approvals)
  {
    hide Find, LaunchTargets, Bounded, LaunchesIn, Count;
    var launches := LaunchesIn(actions);
    if !crew.Alone? && launches != [] {
      var r := ResolveClaims(items, actions, crew, now);
      PutBackBounded(cfg, items, launches, now, log + actions, approvals);
      var back := PutBack(items, launches, now);
      var ids := if crew.Connected? then Granted(Answered(crew.claims, launches)) else [];
      GrantedBounded(cfg, back, ids, now, log + actions, approvals);
      var granted := LaunchGranted(back, ids, now);
      assert WithoutLaunches(actions) + [] == WithoutLaunches(actions);
      assert r == Sweep(granted.items, WithoutLaunches(actions) + granted.actions);
      forall k | 0 <= k < |items| ensures Bounded(cfg, r.items[k], log + r.actions, r.items[k].id in approvals) {
        ResolvedCounts(cfg, r.items[k].id, log, actions, granted.actions);
        BoundedByCounts(cfg, r.items[k], log + actions, log + r.actions, r.items[k].id in approvals);
      }
    }
  }

  // ---- Payloads ---------------------------------------------------------------------------

  lemma HydrateKeepsPayloads(cfg: Config, items: seq<Item>, id: Id, to: State, now: int)
    requires !to.Merging?
    ensures AllKeepPayload(cfg, items, Hydrate(items, id, to, now))
  {
  }

  lemma PayloadsChain(cfg: Config, a: seq<Item>, b: seq<Item>, c: seq<Item>)
    requires AllKeepPayload(cfg, a, b) && AllKeepPayload(cfg, b, c)
    ensures AllKeepPayload(cfg, a, c)
  {
  }

  lemma {:induction false} PutBackKeepsPayloads(cfg: Config, items: seq<Item>, launches: seq<Action>, now: int)
    ensures AllKeepPayload(cfg, items, PutBack(items, launches, now))
    decreases |launches|
  {
    hide Hydrate;
    if launches != [] {
      var next := Hydrate(items, launches[0].id, Ready, now);
      HydrateKeepsPayloads(cfg, items, launches[0].id, Ready, now);
      PutBackKeepsPayloads(cfg, next, launches[1..], now);
      PayloadsChain(cfg, items, next, PutBack(next, launches[1..], now));
    }
  }

  lemma {:induction false} GrantedKeepsPayloads(cfg: Config, items: seq<Item>, ids: seq<Id>, now: int)
    ensures AllKeepPayload(cfg, items, LaunchGranted(items, ids, now).items)
    decreases |ids|
  {
    hide Hydrate;
    if ids != [] {
      var k := Find(items, ids[0]);
      if k < 0 || !Launchable(items[k].state) {
        GrantedKeepsPayloads(cfg, items, ids[1..], now);
      } else {
        var next := Hydrate(items, ids[0], Launching, now);
        HydrateKeepsPayloads(cfg, items, ids[0], Launching, now);
        GrantedKeepsPayloads(cfg, next, ids[1..], now);
        PayloadsChain(cfg, items, next, LaunchGranted(next, ids[1..], now).items);
      }
    }
  }

  lemma ResolveKeepsPayloads(cfg: Config, items: seq<Item>, actions: seq<Action>, crew: Crew, now: int)
    ensures AllKeepPayload(cfg, items, ResolveClaims(items, actions, crew, now).items)
  {
    hide PutBack, LaunchGranted, LaunchesIn;
    var launches := LaunchesIn(actions);
    var back := PutBack(items, launches, now);
    PutBackKeepsPayloads(cfg, items, launches, now);
    if crew.Connected? {
      var ids := Granted(Answered(crew.claims, launches));
      GrantedKeepsPayloads(cfg, back, ids, now);
      PayloadsChain(cfg, items, back, LaunchGranted(back, ids, now).items);
    }
  }
}
