/**
 * The crew state as the broker updates it in place (core/broker-state.ts). Every method does what
 * its specification in module Broker says, to the crew and to the event list.
 */
module BrokerState {
  import opened Broker
  import opened BrokerFacts

  class CrewState {
    var items: map<ItemId, Entry>
    var order: seq<ItemId>
    var daemons: map<DaemonId, Daemon>
    var daemonOrder: seq<DaemonId>

    ghost function View(): Crew
      reads this
    {
      Crew(items, order, daemons, daemonOrder)
    }

    /** createCrewState. */
    constructor ()
      ensures View() == EmptyCrew() && Indexed(View())
    {
      items, order, daemons, daemonOrder := map[], [], map[], [];
    }

    /** isWorkItemAvailable. */
    method IsWorkItemAvailable(e: Entry) returns (available: bool)
      ensures available == IsAvailable(View(), e)
    {
      available := e.claimedBy.NoOne? && e.completedBy.NoOne?;
      var i := 0;
      while available && i < |e.dependencies|
        invariant 0 <= i <= |e.dependencies|
        invariant available ==> e.claimedBy.NoOne? && e.completedBy.NoOne?
        invariant available ==> forall j :: 0 <= j < i ==> DependencyMet(View(), e.dependencies[j])
        invariant !available ==> !IsAvailable(View(), e)
      {
        var dep := e.dependencies[i];
        available := dep !in items || items[dep].completedBy.By?;
        i := i + 1;
      }
    }

    /** The loop of connectDaemon over the items the daemon had listed. */
    method SplitClaimed(d: DaemonId, claimed: seq<ItemId>) returns (split: Split)
      ensures split == Split(Resumed(View(), d, claimed), Released(View(), d, claimed), Reclaimed(View(), d, claimed))
    {
      hide Resumed, Released, Reclaimed;
      SplitNothing(View(), d);
      var resumed, released, reclaimed := [], [], [];
      var i := 0;
      while i < |claimed|
        invariant 0 <= i <= |claimed|
        invariant resumed == Resumed(View(), d, claimed[..i])
        invariant released == Released(View(), d, claimed[..i])
        invariant reclaimed == Reclaimed(View(), d, claimed[..i])
      {
        var p := claimed[i];
        SplitNext(View(), d, claimed, i);
        if p !in items {
          released := released + [p];
        } else if items[p].claimedBy == By(d) {
          resumed := resumed + [p];
        } else if items[p].claimedBy.By? {
          reclaimed := reclaimed + [p];
        } else {
          released := released + [p];
        }
        i := i + 1;
      }
      assert claimed[..|claimed|] == claimed;
      split := Split(resumed, released, reclaimed);
    }

    method ConnectDaemon(d: DaemonId, name: string, operator: string, now: int) returns (split: Split, events: seq<Event>)
      modifies `daemons, `daemonOrder
      ensures var c := Connect(old(View()), d, name, operator, now); View() == c.crew && split == c.split && events == c.events
    {
      split, events := NoSplit, [];
      if d !in daemons {
        daemons := daemons[d := Daemon(d, name, operator, true, now, Never, [], false)];
        daemonOrder := daemonOrder + [d];
        return;
      }
      var existing := daemons[d];
      var wasDisconnected := existing.disconnectedAt.At? || existing.released;
      var linked := existing.(live := true, lastHeartbeat := now, disconnectedAt := Never, released := false, name := name, operator := operator);
      if wasDisconnected {
        split := SplitClaimed(d, existing.claimedItems);
        KeptIsResumed(View(), d, existing.claimedItems);
        linked := linked.(claimedItems := Without(existing.claimedItems, split.released + split.reclaimed));
        events := [Reconnected(d)];
      }
      daemons := daemons[d := linked];
    }

    method DisconnectDaemon(d: DaemonId, now: int) returns (events: seq<Event>)
      modifies `daemons
      ensures var e := Disconnect(old(View()), d, now); View() == e.crew && events == e.events
    {
      events := [];
      if d in daemons && daemons[d].live {
        daemons := daemons[d := daemons[d].(live := false, disconnectedAt := At(now))];
        events := [Disconnected(d)];
      }
    }

    /** The first loop of syncCrewItems: refresh known items, add new ones. */
    method MergeReported(d: DaemonId, reported: seq<SyncItem>, now: int) returns (events: seq<Event>)
      modifies `items, `order
      ensures var e := MergeAll(old(View()), d, reported, now); View() == e.crew && events == e.events
    {
      events := [];
      ghost var start := View();
      var i := 0;
      while i < |reported|
        invariant 0 <= i <= |reported|
        invariant daemons == start.daemons && daemonOrder == start.daemonOrder
        invariant View() == MergeAll(start, d, reported[..i], now).crew && events == MergeAll(start, d, reported[..i], now).events
      {
        var item := reported[i];
        assert reported[..i + 1][..i] == reported[..i];
        if item.id in items {
          items := items[item.id := items[item.id].(priority := item.priority, dependencies := item.dependencies, author := item.author)];
        } else {
          items := items[item.id := Entry(item.id, item.priority, item.dependencies, item.author, now, d, NoOne, NoOne)];
          order := order + [item.id];
          events := events + [Synced(d, item.id)];
        }
        i := i + 1;
      }
      assert reported[..|reported|] == reported;
    }

    /** One item of the second loop of syncCrewItems. */
    method CompleteIfVanished(d: DaemonId, reported: seq<SyncItem>, p: ItemId) returns (notice: seq<Event>)
      requires p in items && items[p].path == p
      modifies `items
      ensures items == old(items)[p := Reconciled(old(items)[p], d, reported)]
      ensures notice == if Vanished(old(items)[p], d, reported) then [ReconcileCompleted(d, p)] else []
    {
      notice := [];
      var e := items[p];
      if e.creator == d && !Reported(reported, p) && e.completedBy.NoOne? {
        items := items[p := e.(completedBy := By(d), claimedBy := NoOne)];
        notice := [ReconcileCompleted(d, p)];
      }
    }

    /** The second loop: items their creator no longer reports are completed. */
    method CompleteVanished(d: DaemonId, reported: seq<SyncItem>) returns (events: seq<Event>)
      requires WellFormed(View())
      modifies `items
      ensures items == map p | p in old(items) :: Reconciled(old(items)[p], d, reported)
      ensures events == ReconcileEvents(old(View()), order, d, reported)
    {
      hide NoDuplicates, Reconciled, Vanished, PartlyReconciled;
      events := [];
      ghost var was := View();
      StartReconcile(items, d, reported);
      var k := 0;
      while k < |order|
        invariant 0 <= k <= |order| && items.Keys == was.items.Keys && PartlyReconciled(was.items, items, order[..k], d, reported)
        invariant events == ReconcileEvents(was, order[..k], d, reported)
      {
        NextOf(order, k);
        ReconcileNext(was.items, items, order, k, d, reported);
        var notice := CompleteIfVanished(d, reported, order[k]);
        events := events + notice;
        k := k + 1;
      }
      assert order[..|order|] == order;
      EndReconcile(was.items, items, order, d, reported);
    }

    method SyncCrewItems(d: DaemonId, reported: seq<SyncItem>, now: int) returns (ids: seq<ItemId>, events: seq<Event>)
      requires WellFormed(View())
      modifies `items, `order
      ensures var e := Sync(old(View()), d, reported, now); View() == e.crew && events == e.events && ids == e.crew.order
    {
      MergeWellFormed(View(), d, reported, now);
      events := MergeReported(d, reported, now);
      var completed := CompleteVanished(d, reported);
      ids, events := order, events + completed;
    }

    /** The scan finds the head of the stably sorted list of available items. */
    method ClaimNextWorkItem(d: DaemonId) returns (choice: Choice, events: seq<Event>)
      requires WellFormed(View())
      modifies `items, `daemons
      ensures var g := Claim(old(View()), d); View() == g.crew && choice == g.choice && events == g.events
    {
      choice, events := Nothing, [];
      if d !in daemons {
        return;
      }
      var daemon := daemons[d];
      var i := 0;
      while i < |order|
        invariant 0 <= i <= |order| && View() == old(View())
        invariant choice == Best(View(), daemon.operator, order[..i])
      {
        var p := order[i];
        assert order[..i + 1][..i] == order[..i];
        var available := IsWorkItemAvailable(items[p]);
        if available && (choice.Nothing? || ClaimsBefore(daemon.operator, items[p], items[choice.p])) {
          choice := Item(p);
        }
        i := i + 1;
      }
      assert order[..|order|] == order;
      if choice.Item? {
        var e := items[choice.p];
        items := items[choice.p := e.(claimedBy := By(d))];
        daemons := daemons[d := daemon.(claimedItems := With(daemon.claimedItems, choice.p))];
        events := [Claimed(d, choice.p, ByAuthor(daemon.operator, e))];
      }
    }

    method CompleteWorkItem(d: DaemonId, p: ItemId) returns (ok: bool, events: seq<Event>)
      modifies `items, `daemons
      ensures var e := Complete(old(View()), d, p); View() == e.crew && events == e.events
      ensures ok <==> Owns(old(View()), d, p)
    {
      ok, events := p in items && items[p].claimedBy == By(d), [];
      if ok {
        if d in daemons {
          daemons := daemons[d := daemons[d].(claimedItems := Remove(daemons[d].claimedItems, p))];
        }
        items := items[p := items[p].(completedBy := By(d), claimedBy := NoOne)];
        events := [Completed(d, p)];
      }
    }

    method RecordHeartbeat(d: DaemonId, now: int) returns (known: bool)
      modifies `daemons
      ensures View() == Heartbeat(old(View()), d, now) && (known <==> d in old(daemons))
    {
      known := d in daemons;
      if known {
        daemons := daemons[d := daemons[d].(lastHeartbeat := now)];
      }
    }

    /** One item of the loop of releaseDaemonWorkItems. */
    method FreeItem(d: DaemonId, p: ItemId) returns (notice: seq<Event>)
      modifies `items
      ensures items == if Owns(old(View()), d, p) then old(items)[p := old(items)[p].(claimedBy := NoOne)] else old(items)
      ensures notice == if Owns(old(View()), d, p) then [Abandoned(d, p)] else []
    {
      notice := [];
      if p in items && items[p].claimedBy == By(d) {
        items := items[p := items[p].(claimedBy := NoOne)];
        notice := [Abandoned(d, p)];
      }
    }

    /** releaseDaemonWorkItems. */
    method ReleaseDaemonWorkItems(d: DaemonId, claimed: seq<ItemId>) returns (events: seq<Event>)
      requires WellFormed(View()) && NoDuplicates(claimed)
      modifies `items
      ensures items == map p | p in old(items) :: Freed(old(items)[p], d, claimed)
      ensures events == AbandonEvents(old(View()), d, claimed)
    {
      hide NoDuplicates, Freed;
      events := [];
      ghost var was := View();
      NothingFreed(items, d);
      var i := 0;
      while i < |claimed|
        invariant 0 <= i <= |claimed| && items.Keys == was.items.Keys
        invariant forall p :: p in items ==> items[p] == Freed(was.items[p], d, claimed[..i])
        invariant events == AbandonEvents(was, d, claimed[..i])
      {
        NextOf(claimed, i);
        FreeNext(was.items, items, d, claimed, i);
        var notice := FreeItem(d, claimed[i]);
        events := events + notice;
        i := i + 1;
      }
      assert claimed[..|claimed|] == claimed;
    }

    /** One daemon's turn. */
    method CheckHeartbeat(d: DaemonId, opts: Options, now: int) returns (events: seq<Event>)
      requires Indexed(View()) && d in daemons
      modifies `items, `daemons
      ensures var e := CheckDaemon(old(View()), d, opts, now); View() == e.crew && events == e.events
    {
      events := [];
      var daemon := daemons[d];
      if daemon.live && now - daemon.lastHeartbeat > opts.heartbeatTimeoutMs {
        daemon := daemon.(live := false, disconnectedAt := At(now));
        events := [Disconnected(d)];
      }
      if Expired(daemon, opts, now) {
        var released := ReleaseDaemonWorkItems(d, daemon.claimedItems);
        events := events + released;
        daemon := daemon.(released := true);
      }
      daemons := daemons[d := daemon];
    }

    method CheckCrewHeartbeats(opts: Options, now: int) returns (events: seq<Event>)
      requires Indexed(View())
      modifies `items, `daemons
      ensures var e := Check(old(View()), opts, now); View() == e.crew && events == e.events
    {
      events := [];
      ghost var start := View();
      var i := 0;
      while i < |daemonOrder|
        invariant 0 <= i <= |daemonOrder| && order == start.order && daemonOrder == start.daemonOrder
        invariant View() == CheckAll(start, daemonOrder[..i], opts, now).crew
        invariant events == CheckAll(start, daemonOrder[..i], opts, now).events
      {
        CheckAllFacts(start, daemonOrder[..i], opts, now);
        assert daemonOrder[..i + 1][..i] == daemonOrder[..i];
        var turn := CheckHeartbeat(daemonOrder[i], opts, now);
        events := events + turn;
        i := i + 1;
      }
      assert daemonOrder[..|daemonOrder|] == daemonOrder;
    }
  }

  lemma NothingFreed(items: map<ItemId, Entry>, d: DaemonId)
    ensures forall p :: p in items ==> items[p] == Freed(items[p], d, [])
  {
  }

  /** Freeing the next listed item, if the daemon owns it, frees all listed so far. */
  lemma FreeNext(was: map<ItemId, Entry>, items: map<ItemId, Entry>, d: DaemonId, claimed: seq<ItemId>, i: nat)
    requires i < |claimed| && items.Keys == was.Keys && claimed[i] !in claimed[..i] && forall p :: p in was ==> was[p].path == p
    requires forall p :: p in items ==> items[p] == Freed(was[p], d, claimed[..i])
    requires forall x :: x in claimed[..i + 1] <==> x in claimed[..i] || x == claimed[i]
    ensures var p := claimed[i];
      var next := if p in items && items[p].claimedBy == By(d) then items[p := items[p].(claimedBy := NoOne)] else items;
      next.Keys == was.Keys && forall q :: q in next ==> next[q] == Freed(was[q], d, claimed[..i + 1])
    ensures claimed[i] in items ==> items[claimed[i]] == was[claimed[i]]
  {
  }

  lemma NextOf(s: seq<nat>, i: nat)
    requires NoDuplicates(s) && i < |s|
    ensures s[..i + 1][..i] == s[..i] && s[i] !in s[..i]
    ensures forall x :: x in s[..i + 1] <==> x in s[..i] || x == s[i]
  {
    assert s[..i + 1] == s[..i] + [s[i]];
  }

  /** The items listed in `passed` are reconciled, the others are as they were. */
  ghost predicate PartlyReconciled(was: map<ItemId, Entry>, items: map<ItemId, Entry>, passed: seq<ItemId>, d: DaemonId,
                                   reported: seq<SyncItem>)
  {
    && items.Keys == was.Keys
    && forall p :: p in items ==> items[p] == if p in passed then Reconciled(was[p], d, reported) else was[p]
  }

  lemma StartReconcile(items: map<ItemId, Entry>, d: DaemonId, reported: seq<SyncItem>)
    ensures PartlyReconciled(items, items, [], d, reported)
  {
  }

  lemma ReconcileNext(was: map<ItemId, Entry>, items: map<ItemId, Entry>, order: seq<ItemId>, k: nat, d: DaemonId, reported: seq<SyncItem>)
    requires k < |order| && order[k] in items && order[k] !in order[..k]
    requires forall x :: x in order[..k + 1] <==> x in order[..k] || x == order[k]
    requires PartlyReconciled(was, items, order[..k], d, reported)
    ensures var p := order[k];
      && items[p] == was[p]
      && PartlyReconciled(was, items[p := Reconciled(items[p], d, reported)], order[..k + 1], d, reported)
  {
    hide Reconciled;
  }

  lemma EndReconcile(was: map<ItemId, Entry>, items: map<ItemId, Entry>, order: seq<ItemId>, d: DaemonId, reported: seq<SyncItem>)
    requires PartlyReconciled(was, items, order, d, reported) && forall p :: p in was ==> p in order
    ensures items == map p | p in was :: Reconciled(was[p], d, reported)
  {
  }

  lemma SplitNothing(crew: Crew, d: DaemonId)
    ensures Resumed(crew, d, []) == [] && Released(crew, d, []) == [] && Reclaimed(crew, d, []) == []
  {
  }

  lemma SplitNext(crew: Crew, d: DaemonId, claimed: seq<ItemId>, i: nat)
    requires i < |claimed|
    ensures var p := claimed[i];
      && Resumed(crew, d, claimed[..i + 1]) == Resumed(crew, d, claimed[..i]) + (if Owns(crew, d, p) then [p] else [])
      && Reclaimed(crew, d, claimed[..i + 1]) == Reclaimed(crew, d, claimed[..i]) + (if TakenOver(crew, d, p) then [p] else [])
      && Released(crew, d, claimed[..i + 1])
         == Released(crew, d, claimed[..i]) + (if Owns(crew, d, p) || TakenOver(crew, d, p) then [] else [p])
  {
    assert claimed[..i + 1][..i] == claimed[..i];
  }

  /** The elements of `s` that are not in `gone`: deleting from the set while its order stays. */
  function Without(s: seq<ItemId>, gone: seq<ItemId>): seq<ItemId> {
    if s == [] then []
    else Without(s[..|s| - 1], gone) + (if s[|s| - 1] in gone then [] else [s[|s| - 1]])
  }

  lemma {:induction false} WithoutIsResumed(crew: Crew, d: DaemonId, s: seq<ItemId>, gone: seq<ItemId>)
    requires forall p :: p in s ==> (p in gone <==> !Owns(crew, d, p))
    ensures Without(s, gone) == Resumed(crew, d, s)
  {
    if s != [] {
      WithoutIsResumed(crew, d, s[..|s| - 1], gone);
    }
  }

  lemma KeptIsResumed(crew: Crew, d: DaemonId, claimed: seq<ItemId>)
    ensures Without(claimed, Released(crew, d, claimed) + Reclaimed(crew, d, claimed)) == Resumed(crew, d, claimed)
  {
    WithoutIsResumed(crew, d, claimed, Released(crew, d, claimed) + Reclaimed(crew, d, claimed));
  }
}
