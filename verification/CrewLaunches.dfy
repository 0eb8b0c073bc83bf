/**
 * Which items a poll starts in crew mode, in closed form: the launches of a poll resolved by the
 * broker's answers (core/orchestrate-event-loop.ts).
 */
module CrewLaunches {
  import opened OrchestratorTypes
  import opened Poll
  import opened PollFacts
  import opened PollTheorems
  import opened Claims

  /** The poll asked to launch the item. */
  predicate Launches(actions: seq<Action>, id: Id) {
    exists j :: 0 <= j < |actions| && actions[j].Launch? && actions[j].id == id
  }

  /** The actions that launch nothing, in order. */
  function NotLaunches(actions: seq<Action>): seq<Action> {
    if actions == [] then []
    else
      var last := |actions| - 1;
      NotLaunches(actions[..last]) + (if actions[last].Launch? then [] else [actions[last]])
  }

  /** Where the broker first answers with the item, or -1. */
  function FirstAnswer(answers: seq<Ref>, id: Id): (k: int)
    ensures -1 <= k < |answers|
    ensures k >= 0 ==> answers[k] == Ref(id) && forall j :: 0 <= j < k ==> answers[j] != Ref(id)
    ensures k < 0 ==> forall j :: 0 <= j < |answers| ==> answers[j] != Ref(id)
  {
    if answers == [] then -1
    else
      var last := |answers| - 1;
      var k := FirstAnswer(answers[..last], id);
      if k >= 0 then k else if answers[last] == Ref(id) then last else -1
  }

  /** The broker is asked once per launch. */
  function Heard(claims: seq<Ref>, launches: nat): seq<Ref> {
    if |claims| <= launches then claims else claims[..launches]
  }

  /** The item waits to be started, or was about to be. */
  predicate CanStart(it: Item) {
    it.state.Queued? || it.state.Ready? || it.state.Launching?
  }

  /** The broker answered with a tracked item that can start. */
  predicate Starts(items: seq<Item>, answers: seq<Ref>, id: Id) {
    FirstAnswer(answers, id) >= 0 && exists k :: 0 <= k < |items| && items[k].id == id && CanStart(items[k])
  }

  function Now(it: Item, state: State, now: int): Item {
    it.(state := state, lastTransition := now)
  }

  // ---- The parts --------------------------------------------------------------------------

  predicate Mentions(launches: seq<Action>, id: Id) {
    exists j :: 0 <= j < |launches| && launches[j].id == id
  }

  lemma HydrateExactly(items: seq<Item>, id: Id, to: State, now: int)
    requires DistinctIds(items)
    ensures var next := Hydrate(items, id, to, now);
      && SameIds(items, next) && DistinctIds(next)
      && forall k :: 0 <= k < |items| ==> next[k] == if items[k].id == id then Now(items[k], to, now) else items[k]
  {
    forall k | 0 <= k < |items| && items[k].id == id ensures Find(items, id) == k {
      FindUnique(items, k);
    }
  }

  lemma {:induction false} PutBackExactly(items: seq<Item>, launches: seq<Action>, now: int)
    requires DistinctIds(items)
    ensures var next := PutBack(items, launches, now);
      && SameIds(items, next) && DistinctIds(next)
      && forall k :: 0 <= k < |items| ==> next[k] == if Mentions(launches, items[k].id) then Now(items[k], Ready, now) else items[k]
    decreases |launches|
  {
    hide Hydrate, DistinctIds;
    if launches != [] {
      var next := Hydrate(items, launches[0].id, Ready, now);
      HydrateExactly(items, launches[0].id, Ready, now);
      PutBackExactly(next, launches[1..], now);
      forall k | 0 <= k < |items|
        ensures Mentions(launches, items[k].id) <==> launches[0].id == items[k].id || Mentions(launches[1..], items[k].id)
      {
        MentionsHead(launches, items[k].id);
      }
    }
  }

  lemma MentionsHead(launches: seq<Action>, id: Id)
    requires launches != []
    ensures Mentions(launches, id) <==> launches[0].id == id || Mentions(launches[1..], id)
  {
    var rest := launches[1..];
    assert forall j :: 0 <= j < |rest| ==> rest[j] == launches[j + 1];
    if Mentions(launches, id) && launches[0].id != id {
      var j :| 0 <= j < |launches| && launches[j].id == id;
      assert rest[j - 1].id == id;
    }
  }

  /** A tracked item with this id can start. */
  predicate Startable(items: seq<Item>, id: Id) {
    exists k :: 0 <= k < |items| && items[k].id == id && CanStart(items[k])
  }

  /** The launches for the listed ids that can start, in order. */
  function Started(items: seq<Item>, ids: seq<Id>): seq<Action> {
    if ids == [] then [] else (if Startable(items, ids[0]) then [Launch(ids[0], Absent)] else []) + Started(items, ids[1..])
  }

  predicate Once(ids: seq<Id>) {
    forall i, j :: 0 <= i < j < |ids| ==> ids[i] != ids[j]
  }

  lemma StartableAt(items: seq<Item>, id: Id)
    requires DistinctIds(items)
    ensures var k := Find(items, id); Startable(items, id) <==> k >= 0 && CanStart(items[k])
    ensures Find(items, id) >= 0 ==> (Launchable(items[Find(items, id)].state) <==> CanStart(items[Find(items, id)]))
  {
    if Startable(items, id) {
      var k :| 0 <= k < |items| && items[k].id == id && CanStart(items[k]);
      FindUnique(items, k);
    }
  }

  lemma {:induction false} StartedSame(items: seq<Item>, next: seq<Item>, ids: seq<Id>)
    requires forall i :: 0 <= i < |ids| ==> (Startable(items, ids[i]) <==> Startable(next, ids[i]))
    ensures Started(items, ids) == Started(next, ids)
  {
    if ids != [] {
      assert forall i :: 0 <= i < |ids[1..]| ==> ids[1..][i] == ids[i + 1];
      StartedSame(items, next, ids[1..]);
    }
  }

  lemma {:induction false} GrantedExactly(items: seq<Item>, ids: seq<Id>, now: int)
    requires DistinctIds(items) && Once(ids)
    ensures var s := LaunchGranted(items, ids, now);
      && SameIds(items, s.items) && s.actions == Started(items, ids)
      && forall k :: 0 <= k < |items| ==>
           s.items[k] == if items[k].id in ids && CanStart(items[k]) then Now(items[k], Launching, now) else items[k]
    decreases |ids|
  {
    hide Hydrate, Find, Startable, DistinctIds;
    if ids != [] {
      var id, rest := ids[0], ids[1..];
      assert forall i :: 0 <= i < |rest| ==> rest[i] == ids[i + 1];
      assert forall x :: x in ids <==> x == id || x in rest;
      StartableAt(items, id);
      var k := Find(items, id);
      if k < 0 || !Launchable(items[k].state) {
        GrantedExactly(items, rest, now);
        NotThere(items, id);
      } else {
        var next := Hydrate(items, id, Launching, now);
        HydrateExactly(items, id, Launching, now);
        GrantedExactly(next, rest, now);
        forall i | 0 <= i < |rest| ensures Startable(items, rest[i]) <==> Startable(next, rest[i]) {
          OthersStartable(items, next, id, rest[i]);
        }
        StartedSame(items, next, rest);
        OnlyOne(items, k);
      }
    }
  }

  lemma NotThere(items: seq<Item>, id: Id)
    requires !Startable(items, id)
    ensures forall k :: 0 <= k < |items| && items[k].id == id ==> !CanStart(items[k])
  {
  }

  lemma OnlyOne(items: seq<Item>, k: nat)
    requires DistinctIds(items) && k < |items|
    ensures forall j :: 0 <= j < |items| && items[j].id == items[k].id ==> j == k
  {
  }

  lemma OthersStartable(items: seq<Item>, next: seq<Item>, id: Id, other: Id)
    requires SameIds(items, next) && other != id && forall k :: 0 <= k < |items| && items[k].id != id ==> next[k] == items[k]
    ensures Startable(items, other) <==> Startable(next, other)
  {
    if Startable(items, other) {
      var k :| 0 <= k < |items| && items[k].id == other && CanStart(items[k]);
      assert next[k].id == other;
    }
  }

  lemma {:induction false} GrantedInOrder(answers: seq<Ref>)
    ensures Once(Granted(answers))
    ensures forall id :: id in Granted(answers) <==> FirstAnswer(answers, id) >= 0
    ensures forall i, j :: 0 <= i < j < |Granted(answers)| ==> FirstAnswer(answers, Granted(answers)[i]) < FirstAnswer(answers, Granted(answers)[j])
  {
    if answers != [] {
      var last := |answers| - 1;
      GrantedInOrder(answers[..last]);
      var before, ids := Granted(answers[..last]), Granted(answers);
      assert forall i :: 0 <= i < |before| ==> before[i] in before;
      assert forall i :: 0 <= i < |before| ==> ids[i] == before[i];
    }
  }

  /** A launch started for one of the ids. */
  predicate StartOf(items: seq<Item>, ids: seq<Id>, a: Action) {
    a == Launch(a.id, Absent) && a.id in ids && Startable(items, a.id)
  }

  /** The launches started for ids: each for one that can start, and none missing. */
  lemma {:induction false} StartedAll(items: seq<Item>, ids: seq<Id>)
    ensures forall i :: 0 <= i < |Started(items, ids)| ==> StartOf(items, ids, Started(items, ids)[i])
    ensures forall id :: id in ids && Startable(items, id) ==> Launch(id, Absent) in Started(items, ids)
  {
    hide Startable;
    if ids != [] {
      var rest, started, tail := ids[1..], Started(items, ids), Started(items, ids[1..]);
      StartedAll(items, rest);
      assert forall id :: id in rest ==> id in ids;
      var head := if Startable(items, ids[0]) then [Launch(ids[0], Absent)] else [];
      assert started == head + tail;
      forall i | 0 <= i < |started| ensures StartOf(items, ids, started[i]) {
        if i >= |head| {
          assert StartOf(items, rest, tail[i - |head|]);
        }
      }
      forall id | id in ids && Startable(items, id) ensures Launch(id, Absent) in started {
        if id == ids[0] {
          assert started[0] == Launch(id, Absent);
        } else {
          assert id in rest && Launch(id, Absent) in tail;
        }
      }
    }
  }

  predicate Ordered(ids: seq<Id>, started: seq<Action>) {
    forall i, j :: 0 <= i < j < |started| ==> Before(ids, started[i].id, started[j].id)
  }

  /** They come in the order of the ids. */
  lemma {:induction false} StartedInOrder(items: seq<Item>, ids: seq<Id>)
    ensures Ordered(ids, Started(items, ids))
  {
    hide Startable, Before;
    if ids != [] {
      var rest, started, tail := ids[1..], Started(items, ids), Started(items, ids[1..]);
      StartedInOrder(items, rest);
      assert Ordered(rest, tail);
      StartedAll(items, rest);
      var head := if Startable(items, ids[0]) then [Launch(ids[0], Absent)] else [];
      assert started == head + tail;
      forall i, j | 0 <= i < j < |started| ensures Before(ids, started[i].id, started[j].id) {
        assert started[j] == tail[j - |head|] && StartOf(items, rest, tail[j - |head|]);
        if i < |head| {
          BeforeHead(ids, started[j].id);
        } else {
          var m, n := i - |head|, j - |head|;
          assert started[i] == tail[m] && started[j] == tail[n] && Before(rest, tail[m].id, tail[n].id);
          BeforeShifts(ids, started[i].id, started[j].id);
        }
      }
    }
  }

  lemma BeforeShifts(ids: seq<Id>, a: Id, b: Id)
    requires ids != [] && Before(ids[1..], a, b)
    ensures Before(ids, a, b)
  {
    var i, j :| 0 <= i < j < |ids[1..]| && ids[1..][i] == a && ids[1..][j] == b;
    assert ids[i + 1] == a && ids[j + 1] == b;
  }

  lemma BeforeHead(ids: seq<Id>, b: Id)
    requires ids != [] && b in ids[1..]
    ensures Before(ids, ids[0], b)
  {
    var j :| 0 <= j < |ids[1..]| && ids[1..][j] == b;
    assert ids[j + 1] == b;
  }

  predicate Before(ids: seq<Id>, a: Id, b: Id) {
    exists i, j :: 0 <= i < j < |ids| && ids[i] == a && ids[j] == b
  }

  lemma {:induction false} SplitLaunches(actions: seq<Action>)
    ensures WithoutLaunches(actions) == NotLaunches(actions)
    ensures forall id :: Mentions(LaunchesIn(actions), id) <==> Launches(actions, id)
    ensures forall a :: a in NotLaunches(actions) ==> !a.Launch?
  {
    if actions != [] {
      SplitLaunches(actions[1..]);
      NotLaunchesHead(actions);
      var rest := actions[1..];
      forall id ensures Mentions(LaunchesIn(actions), id) <==> Launches(actions, id) {
        LaunchesHead(actions, id);
        if actions[0].Launch? {
          assert LaunchesIn(actions) == [actions[0]] + LaunchesIn(rest);
          MentionsHead(LaunchesIn(actions), id);
          assert LaunchesIn(actions)[1..] == LaunchesIn(rest);
        } else {
          assert LaunchesIn(actions) == LaunchesIn(rest);
        }
      }
    }
  }

  lemma LaunchesHead(actions: seq<Action>, id: Id)
    requires actions != []
    ensures Launches(actions, id) <==> (actions[0].Launch? && actions[0].id == id) || Launches(actions[1..], id)
  {
    var rest := actions[1..];
    assert forall j :: 0 <= j < |rest| ==> rest[j] == actions[j + 1];
    if Launches(actions, id) && !(actions[0].Launch? && actions[0].id == id) {
      var j :| 0 <= j < |actions| && actions[j].Launch? && actions[j].id == id;
      assert rest[j - 1].id == id;
    }
  }

  lemma {:induction false} NotLaunchesHead(actions: seq<Action>)
    requires actions != []
    ensures NotLaunches(actions) == (if actions[0].Launch? then [] else [actions[0]]) + NotLaunches(actions[1..])
  {
    if |actions| > 1 {
      var last := |actions| - 1;
      NotLaunchesHead(actions[..last]);
      assert actions[..last][1..] == actions[1..][..last - 1];
      assert actions[1..][last - 1] == actions[last];
    }
  }

  lemma {:induction false} LaunchesAppended(actions: seq<Action>, launches: seq<Action>)
    requires (forall a :: a in actions ==> !a.Launch?) && forall a :: a in launches ==> a.Launch?
    ensures LaunchesIn(actions + launches) == launches
  {
    LaunchesInConcat(actions, launches);
    NoneLaunches(actions);
    AllLaunches(launches);
    assert [] + launches == launches;
  }

  // ---- The resolution ---------------------------------------------------------------------

  /** An item after the resolution. */
  function Resolved(items: seq<Item>, actions: seq<Action>, answers: seq<Ref>, it: Item, now: int): Item {
    if Starts(items, answers, it.id) then Now(it, Launching, now)
    else if Launches(actions, it.id) then Now(it, Ready, now)
    else it
  }

  /**
   * Main result: a poll that asked for launches, resolved by the broker. It launches exactly the
   * tracked items among the first answers, one answer per launch asked for, that can start: each
   * once, in the order of the answers, from the default branch. They end launching, every other item
   * whose launch was asked for goes back to ready, the rest is left alone, and so are the other
   * actions.
   */
  lemma ResolveExactly(items: seq<Item>, actions: seq<Action>, claims: seq<Ref>, now: int)
    requires DistinctIds(items) && LaunchTargets(items, LaunchesIn(actions)) && LaunchesIn(actions) != []
    ensures var s := ResolveClaims(items, actions, Connected(claims), now);
      var answers, launches := Heard(claims, |LaunchesIn(actions)|), LaunchesIn(s.actions);
      && |s.items| == |items| && (forall k :: 0 <= k < |items| ==> s.items[k] == Resolved(items, actions, answers, items[k], now))
      && s.actions == NotLaunches(actions) + launches
      && (forall id :: Launch(id, Absent) in launches <==> Starts(items, answers, id))
      && (forall i :: 0 <= i < |launches| ==> launches[i] == Launch(launches[i].id, Absent))
      && (forall i, j :: 0 <= i < j < |launches| ==> FirstAnswer(answers, launches[i].id) < FirstAnswer(answers, launches[j].id))
  {
    hide LaunchesIn, PutBack, LaunchGranted, Granted, WithoutLaunches, NotLaunches, DistinctIds, Mentions, FirstAnswer, Started, Startable,
         Find;
    var asked, answers := LaunchesIn(actions), Heard(claims, |LaunchesIn(actions)|);
    assert answers == Claims.Answered(claims, asked);
    PutBackExactly(items, asked, now);
    var back, ids := PutBack(items, asked, now), Granted(answers);
    GrantedInOrder(answers);
    GrantedExactly(back, ids, now);
    SplitLaunches(actions);
    AskedAreLaunching(items, asked);
    forall id ensures Startable(back, id) <==> Startable(items, id) {
      BackStartable(items, back, asked, id, now);
    }
    StartedSame(items, back, ids);
    StartedAll(items, ids);
    StartedInOrder(items, ids);
    var launches := Started(items, ids);
    LaunchesAppended(NotLaunches(actions), launches);
    forall id ensures Starts(items, answers, id) <==> FirstAnswer(answers, id) >= 0 && Startable(items, id) {
      StartsParts(items, answers, id);
    }
    forall i, j | 0 <= i < j < |launches| ensures FirstAnswer(answers, launches[i].id) < FirstAnswer(answers, launches[j].id) {
      assert Before(ids, launches[i].id, launches[j].id);
    }
    forall k | 0 <= k < |items|
      ensures LaunchGranted(back, ids, now).items[k] == Resolved(items, actions, answers, items[k], now)
    {
      ResolvedAt(items, back, asked, answers, ids, k, now);
    }
  }

  lemma StartsParts(items: seq<Item>, answers: seq<Ref>, id: Id)
    ensures Starts(items, answers, id) <==> FirstAnswer(answers, id) >= 0 && Startable(items, id)
  {
  }

  lemma AskedAreLaunching(items: seq<Item>, asked: seq<Action>)
    requires DistinctIds(items) && LaunchTargets(items, asked)
    ensures forall k :: 0 <= k < |items| && Mentions(asked, items[k].id) ==> items[k].state.Launching?
  {
    forall k | 0 <= k < |items| && Mentions(asked, items[k].id) ensures items[k].state.Launching? {
      var j :| 0 <= j < |asked| && asked[j].id == items[k].id;
      FindUnique(items, k);
    }
  }

  lemma BackStartable(items: seq<Item>, back: seq<Item>, asked: seq<Action>, id: Id, now: int)
    requires SameIds(items, back)
    requires forall k :: 0 <= k < |items| ==> back[k] == if Mentions(asked, items[k].id) then Now(items[k], Ready, now) else items[k]
    requires forall k :: 0 <= k < |items| && Mentions(asked, items[k].id) ==> items[k].state.Launching?
    ensures Startable(back, id) <==> Startable(items, id)
  {
    hide Mentions;
    assert forall k :: 0 <= k < |items| ==> (CanStart(back[k]) <==> CanStart(items[k]));
    if Startable(items, id) {
      var k :| 0 <= k < |items| && items[k].id == id && CanStart(items[k]);
      assert back[k].id == id;
    }
  }

  lemma ResolvedAt(items: seq<Item>, back: seq<Item>, asked: seq<Action>, answers: seq<Ref>, ids: seq<Id>, k: nat, now: int)
    requires DistinctIds(items) && SameIds(items, back) && k < |items|
    requires back[k] == if Mentions(asked, items[k].id) then Now(items[k], Ready, now) else items[k]
    requires Mentions(asked, items[k].id) ==> items[k].state.Launching?
    requires items[k].id in ids <==> FirstAnswer(answers, items[k].id) >= 0
    ensures (if back[k].id in ids && CanStart(back[k]) then Now(back[k], Launching, now) else back[k])
         == if Starts(items, answers, items[k].id) then Now(items[k], Launching, now)
            else if Mentions(asked, items[k].id) then Now(items[k], Ready, now) else items[k]
  {
    hide Mentions;
    OnlyOne(items, k);
  }

  /** Without a connection no launch is left, and every item whose launch was asked for goes back to ready. */
  lemma DisconnectedExactly(items: seq<Item>, actions: seq<Action>, now: int)
    requires DistinctIds(items)
    ensures var s := ResolveClaims(items, actions, Disconnected, now);
      && |s.items| == |items|
      && (forall k :: 0 <= k < |items| ==> s.items[k] == if Launches(actions, items[k].id) then Now(items[k], Ready, now) else items[k])
      && s.actions == NotLaunches(actions)
  {
    hide LaunchesIn, PutBack, WithoutLaunches, NotLaunches, DistinctIds, Mentions;
    PutBackExactly(items, LaunchesIn(actions), now);
    SplitLaunches(actions);
    if LaunchesIn(actions) == [] {
      NothingAsked(actions);
    }
  }

  lemma {:induction false} NothingAsked(actions: seq<Action>)
    requires LaunchesIn(actions) == []
    ensures NotLaunches(actions) == actions && forall id :: !Launches(actions, id)
  {
    if actions != [] {
      NothingAsked(actions[1..]);
      NotLaunchesHead(actions);
      assert actions == [actions[0]] + actions[1..];
      forall id ensures !Launches(actions, id) {
        LaunchesHead(actions, id);
      }
    }
  }
}
