/**
 * What a report, a connect, a heartbeat, a claim and a completion make of the crew, in closed form
 * (core/broker-state.ts).
 */
module BrokerEffects {
  import opened Broker
  import opened BrokerFacts
  import opened BrokerRuns

  // ---- A report ---------------------------------------------------------------------------

  /** The report names the item. */
  predicate Names(items: seq<SyncItem>, p: ItemId) {
    exists i :: 0 <= i < |items| && items[i].id == p
  }

  /** The last of the reports of one item: the one that counts. */
  predicate LastWord(items: seq<SyncItem>, i: nat) {
    i < |items| && forall j :: i < j < |items| ==> items[j].id != items[i].id
  }

  /** Where an item is first reported, or -1. */
  function FirstAt(items: seq<SyncItem>, p: ItemId): (k: int)
    ensures -1 <= k < |items|
    ensures k >= 0 ==> items[k].id == p && forall j :: 0 <= j < k ==> items[j].id != p
    ensures k < 0 ==> !Names(items, p)
  {
    if items == [] then -1
    else
      var last := |items| - 1;
      var k := FirstAt(items[..last], p);
      if k >= 0 then k else if items[last].id == p then last else -1
  }

  /** The entry of a reported item: a known one is brought up to date, a new one is the daemon's own. */
  function Updated(crew: Crew, d: DaemonId, item: SyncItem, now: int): Entry {
    if item.id in crew.items then
      Entry(crew.items[item.id].path, item.priority, item.dependencies, item.author, crew.items[item.id].syncedAt,
            crew.items[item.id].creator, crew.items[item.id].claimedBy, crew.items[item.id].completedBy)
    else Entry(item.id, item.priority, item.dependencies, item.author, now, d, NoOne, NoOne)
  }

  /** The entry of an item the daemon does not report: its own open ones are finished. */
  function Unreported(d: DaemonId, e: Entry): Entry {
    if e.creator == d && e.completedBy == NoOne then e.(completedBy := By(d), claimedBy := NoOne) else e
  }

  /** The reported items the crew did not know, in the order of their first report. */
  ghost predicate Newcomers(crew: Crew, items: seq<SyncItem>, news: seq<ItemId>) {
    && (forall m :: 0 <= m < |news| ==> news[m] !in crew.items && Names(items, news[m]))
    && (forall m, n :: 0 <= m < n < |news| ==> FirstAt(items, news[m]) < FirstAt(items, news[n]))
    && (forall p :: p !in crew.items && Names(items, p) ==> p in news)
  }

  /** The items after the report: known ones keep their places, and the new ones follow. */
  ghost predicate Lines(crew: Crew, items: seq<SyncItem>, order: seq<ItemId>) {
    |crew.order| <= |order| && order[..|crew.order|] == crew.order && Newcomers(crew, items, order[|crew.order|..])
  }

  /** The crew after the first loop of syncCrewItems. */
  ghost predicate Merged(crew: Crew, d: DaemonId, items: seq<SyncItem>, now: int, e: Effect) {
    && e.crew.daemons == crew.daemons && e.crew.daemonOrder == crew.daemonOrder
    && (forall p :: p in e.crew.items <==> p in crew.items || Names(items, p))
    && (forall i :: 0 <= i < |items| && LastWord(items, i) ==> e.crew.items[items[i].id] == Updated(crew, d, items[i], now))
    && (forall p :: p in crew.items && !Names(items, p) ==> e.crew.items[p] == crew.items[p])
    && Lines(crew, items, e.crew.order)
    && (forall x :: x in e.events <==> x.Synced? && x.daemon == d && x.item !in crew.items && Names(items, x.item))
  }

  lemma NamesMore(items: seq<SyncItem>, item: SyncItem, p: ItemId)
    ensures Names(items + [item], p) <==> Names(items, p) || item.id == p
    ensures FirstAt(items + [item], p) == if Names(items, p) then FirstAt(items, p) else if item.id == p then |items| else -1
  {
    var all := items + [item];
    assert all[..|items|] == items && all[|items|] == item;
    assert forall i :: 0 <= i < |items| ==> all[i] == items[i];
  }

  lemma LinesMore(crew: Crew, items: seq<SyncItem>, item: SyncItem, order: seq<ItemId>)
    requires Lines(crew, items, order)
    ensures Lines(crew, items + [item], if item.id in crew.items || Names(items, item.id) then order else order + [item.id])
  {
    hide Newcomers, Names;
    NewcomersMore(crew, items, item, order[|crew.order|..]);
    assert (order + [item.id])[..|crew.order|] == order[..|crew.order|];
    assert (order + [item.id])[|crew.order|..] == order[|crew.order|..] + [item.id];
  }

  lemma NewcomersMore(crew: Crew, items: seq<SyncItem>, item: SyncItem, news: seq<ItemId>)
    requires Newcomers(crew, items, news)
    ensures Newcomers(crew, items + [item], if item.id in crew.items || Names(items, item.id) then news else news + [item.id])
  {
    hide FirstAt, Names;
    var next := if item.id in crew.items || Names(items, item.id) then news else news + [item.id];
    forall m | 0 <= m < |next| ensures next[m] !in crew.items && Names(items + [item], next[m]) {
      NamesMore(items, item, next[m]);
    }
    forall m, n | 0 <= m < n < |next| ensures FirstAt(items + [item], next[m]) < FirstAt(items + [item], next[n]) {
      NamesMore(items, item, next[m]);
      NamesMore(items, item, next[n]);
    }
    forall p | p !in crew.items && Names(items + [item], p) ensures p in next {
      NamesMore(items, item, p);
    }
  }

  lemma LastWordMore(items: seq<SyncItem>, item: SyncItem, i: nat)
    requires i <= |items|
    ensures LastWord(items + [item], i) <==> i == |items| || (LastWord(items, i) && items[i].id != item.id)
  {
    var all := items + [item];
    assert all[|items|] == item && forall j :: 0 <= j < |items| ==> all[j] == items[j];
  }

  /** One more report. */
  lemma MergeStep(crew: Crew, d: DaemonId, items: seq<SyncItem>, item: SyncItem, now: int, e: Effect)
    requires WellFormed(crew) && Merged(crew, d, items, now, e)
    ensures var m := Merge(e.crew, d, item, now); Merged(crew, d, items + [item], now, Effect(m.crew, e.events + m.events))
  {
    hide FirstAt, Names, Lines, LastWord;
    var all, m := items + [item], Merge(e.crew, d, item, now);
    forall p ensures Names(all, p) <==> Names(items, p) || item.id == p {
      NamesMore(items, item, p);
    }
    LinesMore(crew, items, item, e.crew.order);
    forall i | 0 <= i < |all| && LastWord(all, i)
      ensures all[i].id in m.crew.items && m.crew.items[all[i].id] == Updated(crew, d, all[i], now)
    {
      LastWordMore(items, item, i);
      NamedAt(all, i);
      if i == |items| && item.id in e.crew.items {
        KnownEntry(crew, d, items, item.id, now, e);
      }
    }
  }

  /** A known item of the crew on the way keeps what a report does not speak of. */
  lemma KnownEntry(crew: Crew, d: DaemonId, items: seq<SyncItem>, p: ItemId, now: int, e: Effect)
    requires Merged(crew, d, items, now, e) && WellFormed(crew) && p in e.crew.items
    ensures var entry := e.crew.items[p];
      if p in crew.items then
        entry == crew.items[p].(priority := entry.priority, dependencies := entry.dependencies, author := entry.author)
      else
        entry == Entry(p, entry.priority, entry.dependencies, entry.author, now, d, NoOne, NoOne)
  {
    hide Lines;
    if Names(items, p) {
      var i := LastNamed(items, p);
      assert LastWord(items, i) && items[i].id == p;
    }
  }

  lemma LastNamed(items: seq<SyncItem>, p: ItemId) returns (i: nat)
    requires Names(items, p)
    ensures LastWord(items, i) && items[i].id == p
  {
    i := |items| - 1;
    while items[i].id != p
      invariant i < |items| && forall j :: i < j < |items| ==> items[j].id != p
      invariant exists j :: 0 <= j <= i && items[j].id == p
      decreases i
    {
      i := i - 1;
    }
  }

  lemma {:induction false} MergesReport(crew: Crew, d: DaemonId, items: seq<SyncItem>, now: int)
    requires WellFormed(crew)
    ensures Merged(crew, d, items, now, MergeAll(crew, d, items, now))
  {
    hide Merged, WellFormed, MergeAll, Merge;
    MergeUnfolds(crew, d, items, now);
    if items == [] {
      NothingReported(crew, d, now);
    } else {
      var last := |items| - 1;
      MergesReport(crew, d, items[..last], now);
      MergeStep(crew, d, items[..last], items[last], now, MergeAll(crew, d, items[..last], now));
      assert items == items[..last] + [items[last]];
    }
  }

  lemma MergeUnfolds(crew: Crew, d: DaemonId, items: seq<SyncItem>, now: int)
    ensures items == [] ==> MergeAll(crew, d, items, now) == Effect(crew, [])
    ensures items != [] ==>
      var before := MergeAll(crew, d, items[..|items| - 1], now);
      var m := Merge(before.crew, d, items[|items| - 1], now);
      MergeAll(crew, d, items, now) == Effect(m.crew, before.events + m.events)
  {
    hide Merge;
  }

  lemma NothingReported(crew: Crew, d: DaemonId, now: int)
    requires WellFormed(crew)
    ensures Merged(crew, d, [], now, Effect(crew, []))
  {
  }

  /** The daemon's own open items that it no longer reports. */
  predicate Dropped(crew: Crew, d: DaemonId, items: seq<SyncItem>, p: ItemId) {
    p in crew.items && crew.items[p].creator == d && crew.items[p].completedBy == NoOne && !Names(items, p)
  }

  lemma {:induction false} ReconcileTells(crew: Crew, order: seq<ItemId>, d: DaemonId, items: seq<SyncItem>)
    requires WellFormed(crew) && forall p :: p in order ==> p in crew.items
    ensures forall x :: x in ReconcileEvents(crew, order, d, items) <==>
      x.ReconcileCompleted? && x.daemon == d && x.item in order && Dropped(crew, d, items, x.item)
  {
    if order != [] {
      var last := |order| - 1;
      ReconcileTells(crew, order[..last], d, items);
      SameDropped(crew, d, items, order[last]);
      assert forall p :: p in order <==> p in order[..last] || p == order[last];
    }
  }

  lemma SameDropped(crew: Crew, d: DaemonId, items: seq<SyncItem>, p: ItemId)
    requires WellFormed(crew) && p in crew.items
    ensures Vanished(crew.items[p], d, items) <==> Dropped(crew, d, items, p)
  {
    assert Reported(items, p) <==> Names(items, p);
  }

  /**
   * Main result: what a report makes of the crew. Every reported item is there with the priority,
   * dependencies and author of its last report; a known one keeps its creator, age, claim and
   * completion, a new one is the reporting daemon's, unclaimed, and follows the known ones in the
   * order of the reports. Of the others only the daemon's own open items change: they are finished.
   */
  lemma SyncExactly(crew: Crew, d: DaemonId, items: seq<SyncItem>, now: int)
    requires WellFormed(crew)
    ensures var next := Sync(crew, d, items, now).crew;
      && next.daemons == crew.daemons && next.daemonOrder == crew.daemonOrder
      && (forall p :: p in next.items <==> p in crew.items || Names(items, p))
      && (forall i :: 0 <= i < |items| && LastWord(items, i) ==> next.items[items[i].id] == Updated(crew, d, items[i], now))
      && (forall p :: p in crew.items && !Names(items, p) ==> next.items[p] == Unreported(d, crew.items[p]))
      && Lines(crew, items, next.order)
    ensures forall x :: x in Sync(crew, d, items, now).events <==>
      || (x.Synced? && x.daemon == d && x.item !in crew.items && Names(items, x.item))
      || (x.ReconcileCompleted? && x.daemon == d && Dropped(crew, d, items, x.item))
  {
    hide Lines, LastWord, Names, MergeAll, ReconcileEvents;
    MergeWellFormed(crew, d, items, now);
    MergesReport(crew, d, items, now);
    var merged := MergeAll(crew, d, items, now);
    ReconcileTells(merged.crew, merged.crew.order, d, items);
    forall p | p in merged.crew.items ensures Vanished(merged.crew.items[p], d, items) <==> Dropped(merged.crew, d, items, p) {
      SameDropped(merged.crew, d, items, p);
    }
    forall p ensures Dropped(merged.crew, d, items, p) <==> Dropped(crew, d, items, p) {
    }
    forall i | 0 <= i < |items| ensures Names(items, items[i].id) {
      NamedAt(items, i);
    }
  }

  lemma NamedAt(items: seq<SyncItem>, i: nat)
    requires i < |items|
    ensures Names(items, items[i].id)
  {
  }

  // ---- A connect and a completion ---------------------------------------------------------

  /**
   * A connect leaves the daemon linked, heard of now, without a stamp and not released, under the
   * name and operator it gave; it touches no item and no other daemon.
   */
  lemma ConnectExactly(crew: Crew, d: DaemonId, name: string, operator: string, now: int)
    requires WellFormed(crew)
    ensures var next := Connect(crew, d, name, operator, now).crew;
      && d in next.daemons
      && next.daemons[d] == Daemon(d, name, operator, true, now, Never, next.daemons[d].claimedItems, false)
      && (d !in crew.daemons ==> next.daemons[d].claimedItems == [])
      && (forall p :: p in next.daemons[d].claimedItems ==> d in crew.daemons && p in crew.daemons[d].claimedItems)
      && (forall e :: e != d ==> (e in next.daemons <==> e in crew.daemons))
      && (forall e :: e != d && e in crew.daemons ==> next.daemons[e] == crew.daemons[e])
      && next.items == crew.items && next.order == crew.order
      && next.daemonOrder == (if d in crew.daemons then crew.daemonOrder else crew.daemonOrder + [d])
    ensures var c := Connect(crew, d, name, operator, now);
      var back := d in crew.daemons && (crew.daemons[d].disconnectedAt.At? || crew.daemons[d].released);
      && c.events == (if back then [Reconnected(d)] else [])
      && (c.split.Split? <==> back)
      && (d in crew.daemons && !back ==> c.crew.daemons[d].claimedItems == crew.daemons[d].claimedItems)
  {
  }

  /** A heartbeat is heard of a known daemon and changes nothing else. */
  lemma HeartbeatExactly(crew: Crew, d: DaemonId, now: int)
    ensures var next := Heartbeat(crew, d, now);
      && next.items == crew.items && next.order == crew.order && next.daemonOrder == crew.daemonOrder
      && next.daemons.Keys == crew.daemons.Keys
      && forall e :: e in crew.daemons ==> next.daemons[e] == if e == d then crew.daemons[d].(lastHeartbeat := now) else crew.daemons[e]
  {
  }

  // ---- A claim ----------------------------------------------------------------------------

  /** Nobody owns or finished the item, and no tracked dependency is open. */
  predicate Free(crew: Crew, p: ItemId) {
    && p in crew.items && crew.items[p].claimedBy == NoOne && crew.items[p].completedBy == NoOne
    && forall q :: q in crew.items[p].dependencies && q in crew.items ==> crew.items[q].completedBy != NoOne
  }

  /** The item is by the daemon's operator. */
  predicate Own(operator: string, e: Entry) {
    operator != "" && e.author == operator
  }

  /** A daemon takes its operator's items first, then the more urgent, then the older ones. */
  predicate Prefers(operator: string, a: Entry, b: Entry) {
    || (Own(operator, a) && !Own(operator, b))
    || ((Own(operator, a) <==> Own(operator, b)) && (a.priority < b.priority || (a.priority == b.priority && a.syncedAt < b.syncedAt)))
  }

  lemma FreeIsAvailable(crew: Crew, p: ItemId)
    requires p in crew.items
    ensures Free(crew, p) <==> IsAvailable(crew, crew.items[p])
  {
    var deps := crew.items[p].dependencies;
    if Free(crew, p) {
      forall i | 0 <= i < |deps| ensures DependencyMet(crew, deps[i]) {
        assert deps[i] in deps;
      }
    }
    if IsAvailable(crew, crew.items[p]) {
      forall q | q in deps && q in crew.items ensures crew.items[q].completedBy != NoOne {
        var i :| 0 <= i < |deps| && deps[i] == q;
        assert DependencyMet(crew, deps[i]);
      }
    }
  }

  /**
   * Main result: a known daemon is refused exactly when no item is free, and otherwise gets the free
   * item nothing free is preferred to, the first one in the order of the crew among equals. The item
   * is entered on both sides, and nothing else changes.
   */
  lemma ClaimExactly(crew: Crew, d: DaemonId)
    requires WellFormed(crew) && d in crew.daemons
    ensures var g := Claim(crew, d);
      var operator := crew.daemons[d].operator;
      && (g.choice.Nothing? <==> forall p :: p in crew.items ==> !Free(crew, p))
      && (g.choice.Nothing? ==> g.crew == crew && g.events == [])
      && (g.choice.Item? ==>
            var p := g.choice.p;
            && Free(crew, p) && (forall q :: q in crew.items && Free(crew, q) ==> !Prefers(operator, crew.items[q], crew.items[p]))
            && g.crew.items == crew.items[p := crew.items[p].(claimedBy := By(d))] && g.crew.order == crew.order
            && g.crew.daemonOrder == crew.daemonOrder && g.crew.daemons.Keys == crew.daemons.Keys
            && (forall e :: e in crew.daemons && e != d ==> g.crew.daemons[e] == crew.daemons[e])
            && g.crew.daemons[d] == crew.daemons[d].(claimedItems := g.crew.daemons[d].claimedItems)
            && (forall q :: q in g.crew.daemons[d].claimedItems <==> q in crew.daemons[d].claimedItems || q == p)
            && g.events == [Claimed(d, p, Own(operator, crew.items[p]))])
    ensures var g := Claim(crew, d);
      g.choice.Item? ==> forall i, j :: 0 <= i < j < |crew.order| && crew.order[j] == g.choice.p && Free(crew, crew.order[i]) ==>
        Prefers(crew.daemons[d].operator, crew.items[g.choice.p], crew.items[crew.order[i]])
  {
    hide IsAvailable, Best, Free, ClaimsBefore, IsPick, NoDuplicates;
    forall p | p in crew.items ensures Free(crew, p) <==> IsAvailable(crew, crew.items[p]) {
      FreeIsAvailable(crew, p);
    }
    forall a: Entry, b: Entry ensures Prefers(crew.daemons[d].operator, a, b) <==> ClaimsBefore(crew.daemons[d].operator, a, b) {
      PrefersExactly(crew.daemons[d].operator, a, b);
    }
    var b := ClaimPicksFirst(crew, d);
    if Claim(crew, d).choice.Item? {
      PickMeans(crew, crew.daemons[d].operator, b);
    }
  }

  lemma PrefersExactly(operator: string, a: Entry, b: Entry)
    ensures Prefers(operator, a, b) <==> ClaimsBefore(operator, a, b)
  {
  }

  /** The picked item is available, nothing available comes before it, and it comes before all available ones listed earlier. */
  lemma PickMeans(crew: Crew, operator: string, b: nat)
    requires WellFormed(crew) && IsPick(crew, operator, crew.order, b)
    ensures IsAvailable(crew, crew.items[crew.order[b]])
    ensures forall q :: q in crew.items && IsAvailable(crew, crew.items[q]) ==> !ClaimsBefore(operator, crew.items[q], crew.items[crew.order[b]])
    ensures forall i, j :: 0 <= i < j < |crew.order| && crew.order[j] == crew.order[b] && IsAvailable(crew, crew.items[crew.order[i]]) ==>
      ClaimsBefore(operator, crew.items[crew.order[b]], crew.items[crew.order[i]])
  {
    hide IsAvailable, ClaimsBefore;
    forall q | q in crew.items && IsAvailable(crew, crew.items[q])
      ensures !ClaimsBefore(operator, crew.items[q], crew.items[crew.order[b]])
    {
      var k :| 0 <= k < |crew.order| && crew.order[k] == q;
    }
  }

  /**
   * A completion is granted exactly to the owner: the item is finished by it and off its list, and
   * nothing else changes; anybody else is refused, and nothing changes at all.
   */
  lemma CompleteExactly(crew: Crew, d: DaemonId, p: ItemId)
    requires Indexed(crew)
    ensures var e := Complete(crew, d, p);
      && (e.events == [Completed(d, p)] <==> p in crew.items && crew.items[p].claimedBy == By(d))
      && (e.events != [Completed(d, p)] ==> e == Effect(crew, []))
      && (e.events == [Completed(d, p)] ==>
            && d in crew.daemons
            && e.crew.items == crew.items[p := crew.items[p].(claimedBy := NoOne, completedBy := By(d))]
            && e.crew.daemons.Keys == crew.daemons.Keys
            && (forall q :: q in e.crew.daemons[d].claimedItems <==> q in crew.daemons[d].claimedItems && q != p)
            && e.crew.daemons[d] == crew.daemons[d].(claimedItems := e.crew.daemons[d].claimedItems)
            && (forall f :: f in crew.daemons && f != d ==> e.crew.daemons[f] == crew.daemons[f])
            && e.crew.order == crew.order && e.crew.daemonOrder == crew.daemonOrder)
  {
    hide NoDuplicates;
  }
}
