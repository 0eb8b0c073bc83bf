/**
 * What every broker step keeps: the ownership index, and the life of each work item as the event
 * log tells it.
 */
module BrokerFacts {
  import opened Broker

  /** A completed item has no owner, and every owner is a known daemon that lists the item. */
  ghost predicate Indexed(crew: Crew) {
    && WellFormed(crew)
    && (forall p :: p in crew.items && crew.items[p].completedBy.By? ==> crew.items[p].claimedBy.NoOne?)
    && (forall p :: p in crew.items && crew.items[p].claimedBy.By? ==> Listed(crew, crew.items[p].claimedBy.daemon, p))
  }

  predicate Listed(crew: Crew, d: DaemonId, p: ItemId) {
    d in crew.daemons && p in crew.daemons[d].claimedItems
  }

  // ---- The life of one item ---------------------------------------------------------------

  datatype Standing = Unknown | Free | Held(owner: DaemonId) | Finished | Broken

  /** How an item stands in the crew. */
  function StandingOf(crew: Crew, p: ItemId): Standing {
    if p !in crew.items then Unknown
    else if crew.items[p].completedBy.By? then Finished
    else if crew.items[p].claimedBy.By? then Held(crew.items[p].claimedBy.daemon)
    else Free
  }

  /** The item's life: what each event makes of it, `Broken` when the event may not happen now. */
  function Live(s: Standing, e: Event, p: ItemId): Standing {
    match e
    case Synced(_, q) => if q != p then s else if s.Unknown? then Free else Broken
    case Claimed(d, q, _) => if q != p then s else if s.Free? then Held(d) else Broken
    case Abandoned(d, q) => if q != p then s else if s == Held(d) then Free else Broken
    case Completed(d, q) => if q != p then s else if s == Held(d) then Finished else Broken
    case ReconcileCompleted(_, q) => if q != p then s else if s.Free? || s.Held? then Finished else Broken
    case Disconnected(_) => s
    case Reconnected(_) => s
  }

  /** The item's life over a log. */
  function LiveAll(s: Standing, log: seq<Event>, p: ItemId): Standing {
    if log == [] then s else Live(LiveAll(s, log[..|log| - 1], p), log[|log| - 1], p)
  }

  lemma {:induction false} LiveConcat(s: Standing, a: seq<Event>, b: seq<Event>, p: ItemId)
    ensures LiveAll(s, a + b, p) == LiveAll(LiveAll(s, a, p), b, p)
  {
    if b == [] {
      assert a + b == a;
    } else {
      assert (a + b)[..|a + b| - 1] == a + b[..|b| - 1];
      LiveConcat(s, a, b[..|b| - 1], p);
    }
  }

  lemma LiveOne(s: Standing, e: Event, p: ItemId)
    ensures LiveAll(s, [e], p) == Live(s, e, p)
  {
    assert [e][..0] == [];
  }

  /** A step tells the truth: the events turn the old standing of every item into the new one. */
  ghost predicate Truthful(crew: Crew, e: Effect) {
    forall p :: LiveAll(StandingOf(crew, p), e.events, p) == StandingOf(e.crew, p)
  }

  lemma OneEventTruthful(crew: Crew, e: Effect, event: Event)
    requires e.events == [event] && forall p :: Live(StandingOf(crew, p), event, p) == StandingOf(e.crew, p)
    ensures Truthful(crew, e)
  {
    forall p ensures LiveAll(StandingOf(crew, p), e.events, p) == StandingOf(e.crew, p) {
      LiveOne(StandingOf(crew, p), event, p);
    }
  }

  lemma NoEventsTruthful(crew: Crew)
    ensures Truthful(crew, Effect(crew, []))
  {
  }

  lemma ChainTruthful(crew: Crew, first: Effect, second: Effect)
    requires Truthful(crew, first) && Truthful(first.crew, second)
    ensures Truthful(crew, Effect(second.crew, first.events + second.events))
  {
    forall p ensures LiveAll(StandingOf(crew, p), first.events + second.events, p) == StandingOf(second.crew, p) {
      LiveConcat(StandingOf(crew, p), first.events, second.events, p);
    }
  }

  // ---- Connections ------------------------------------------------------------------------

  lemma {:induction false} ResumedOnce(crew: Crew, d: DaemonId, claimed: seq<ItemId>)
    requires NoDuplicates(claimed)
    ensures NoDuplicates(Resumed(crew, d, claimed))
  {
    if claimed != [] {
      ResumedOnce(crew, d, claimed[..|claimed| - 1]);
    }
  }

  lemma ConnectFacts(crew: Crew, d: DaemonId, name: string, operator: string, now: int)
    requires Indexed(crew)
    ensures var c := Connect(crew, d, name, operator, now);
      Indexed(c.crew) && Truthful(crew, Effect(c.crew, c.events))
  {
    hide Connect, Truthful, Indexed;
    ConnectIndexed(crew, d, name, operator, now);
    ConnectTells(crew, d, name, operator, now);
  }

  lemma ConnectIndexed(crew: Crew, d: DaemonId, name: string, operator: string, now: int)
    requires Indexed(crew)
    ensures Indexed(Connect(crew, d, name, operator, now).crew)
  {
    hide NoDuplicates;
    if d !in crew.daemons {
      JoinOnce(crew, d);
    } else {
      ResumedOnce(crew, d, crew.daemons[d].claimedItems);
    }
  }

  lemma JoinOnce(crew: Crew, d: DaemonId)
    requires WellFormed(crew) && d !in crew.daemons
    ensures NoDuplicates(crew.daemonOrder + [d]) && NoDuplicates<ItemId>([])
  {
  }

  /** A connect touches no item, and logs a reconnect at most. */
  lemma ConnectTells(crew: Crew, d: DaemonId, name: string, operator: string, now: int)
    ensures var c := Connect(crew, d, name, operator, now); Truthful(crew, Effect(c.crew, c.events))
  {
    hide Resumed, Released, Reclaimed;
    var c := Connect(crew, d, name, operator, now);
    assert forall p :: StandingOf(c.crew, p) == StandingOf(crew, p);
    if c.events != [] {
      OneEventTruthful(crew, Effect(c.crew, c.events), Reconnected(d));
    }
  }

  /**
   * Main result: a reconnect splits what the daemon had listed into disjoint resumed, released and
   * reclaimed items, and afterwards the daemon lists exactly what it owns.
   */
  lemma ReconnectSplits(crew: Crew, d: DaemonId, name: string, operator: string, now: int)
    requires Indexed(crew) && d in crew.daemons
    requires crew.daemons[d].disconnectedAt.At? || crew.daemons[d].released
    ensures var c := Connect(crew, d, name, operator, now);
      && c.split.Split?
      && (forall p :: p in crew.daemons[d].claimedItems <==> p in c.split.resumed || p in c.split.released || p in c.split.reclaimed)
      && (forall p :: !(p in c.split.resumed && p in c.split.released) && !(p in c.split.resumed && p in c.split.reclaimed)
                   && !(p in c.split.released && p in c.split.reclaimed))
      && (forall p :: Listed(c.crew, d, p) <==> Owns(c.crew, d, p))
  {
  }

  lemma DisconnectFacts(crew: Crew, d: DaemonId, now: int)
    requires Indexed(crew)
    ensures var e := Disconnect(crew, d, now); Indexed(e.crew) && Truthful(crew, e)
  {
    var e := Disconnect(crew, d, now);
    if e.events != [] {
      OneEventTruthful(crew, e, Disconnected(d));
    }
  }

  // ---- Synchronisation --------------------------------------------------------------------

  lemma MergeFacts(crew: Crew, d: DaemonId, item: SyncItem, now: int)
    requires Indexed(crew)
    ensures var e := Merge(crew, d, item, now); Indexed(e.crew) && Truthful(crew, e)
  {
    var e := Merge(crew, d, item, now);
    if e.events != [] {
      OneEventTruthful(crew, e, Synced(d, item.id));
    }
  }

  lemma {:induction false} MergeAllFacts(crew: Crew, d: DaemonId, items: seq<SyncItem>, now: int)
    requires Indexed(crew)
    ensures var e := MergeAll(crew, d, items, now); Indexed(e.crew) && Truthful(crew, e)
  {
    if items != [] {
      hide Indexed, Truthful;
      var last := |items| - 1;
      MergeAllFacts(crew, d, items[..last], now);
      var before := MergeAll(crew, d, items[..last], now);
      MergeFacts(before.crew, d, items[last], now);
      ChainTruthful(crew, before, Merge(before.crew, d, items[last], now));
    }
  }

  /** A list without duplicates and its last element. */
  lemma LastOnce(s: seq<nat>)
    requires NoDuplicates(s) && s != []
    ensures var last := |s| - 1;
      NoDuplicates(s[..last]) && s[last] !in s[..last] && forall x :: x in s <==> x in s[..last] || x == s[last]
  {
    assert s == s[..|s| - 1] + [s[|s| - 1]];
  }

  lemma {:induction false} ReconcileEventsMean(crew: Crew, order: seq<ItemId>, d: DaemonId, items: seq<SyncItem>, p: ItemId)
    requires WellFormed(crew) && NoDuplicates(order) && forall q :: q in order ==> q in crew.items
    ensures LiveAll(StandingOf(crew, p), ReconcileEvents(crew, order, d, items), p)
         == if p in order && Vanished(crew.items[p], d, items) then Finished else StandingOf(crew, p)
  {
    if order != [] {
      hide Vanished, NoDuplicates, WellFormed, LiveAll;
      var s := StandingOf(crew, p);
      var last := |order| - 1;
      var q := order[last];
      LastOnce(order);
      ReconcileEventsMean(crew, order[..last], d, items, p);
      var before := ReconcileEvents(crew, order[..last], d, items);
      if Vanished(crew.items[q], d, items) {
        LiveConcat(s, before, [ReconcileCompleted(d, q)], p);
        LiveOne(LiveAll(s, before, p), ReconcileCompleted(d, q), p);
        VanishedIsOpen(crew, q, d, items);
      } else {
        assert before + [] == before;
      }
    }
  }

  lemma VanishedIsOpen(crew: Crew, p: ItemId, d: DaemonId, items: seq<SyncItem>)
    requires p in crew.items && Vanished(crew.items[p], d, items)
    ensures StandingOf(crew, p).Free? || StandingOf(crew, p).Held?
  {
  }

  /** The loop that completes vanished items, from what the merge left. */
  lemma ReconcileTruthful(crew: Crew, d: DaemonId, items: seq<SyncItem>, next: Crew)
    requires WellFormed(crew)
    requires next.items == map p | p in crew.items :: Reconciled(crew.items[p], d, items)
    ensures Truthful(crew, Effect(next, ReconcileEvents(crew, crew.order, d, items)))
  {
    hide LiveAll, ReconcileEvents, NoDuplicates;
    forall p ensures LiveAll(StandingOf(crew, p), ReconcileEvents(crew, crew.order, d, items), p) == StandingOf(next, p) {
      ReconcileEventsMean(crew, crew.order, d, items, p);
    }
  }

  lemma SyncFacts(crew: Crew, d: DaemonId, items: seq<SyncItem>, now: int)
    requires Indexed(crew)
    ensures var e := Sync(crew, d, items, now); Indexed(e.crew) && Truthful(crew, e)
  {
    hide MergeAll, Truthful;
    MergeAllFacts(crew, d, items, now);
    var merged := MergeAll(crew, d, items, now);
    var e := Sync(crew, d, items, now);
    var events := ReconcileEvents(merged.crew, merged.crew.order, d, items);
    ReconcileTruthful(merged.crew, d, items, e.crew);
    ChainTruthful(crew, merged, Effect(e.crew, events));
  }

  // ---- Claims -----------------------------------------------------------------------------

  lemma WithOnce(s: seq<ItemId>, x: ItemId)
    requires NoDuplicates(s)
    ensures NoDuplicates(With(s, x)) && forall y :: y in With(s, x) <==> y in s || y == x
  {
  }

  lemma {:induction false} RemoveOnce(s: seq<ItemId>, x: ItemId)
    requires NoDuplicates(s)
    ensures NoDuplicates(Remove(s, x))
  {
    if s != [] {
      var rest := s[1..];
      assert forall i :: 0 <= i < |rest| ==> rest[i] == s[i + 1];
      RemoveOnce(rest, x);
      assert s[0] !in Remove(rest, x);
    }
  }

  lemma AvailableIsOpen(crew: Crew, e: Entry)
    requires IsAvailable(crew, e)
    ensures e.claimedBy.NoOne? && e.completedBy.NoOne?
  {
  }

  lemma ClaimFacts(crew: Crew, d: DaemonId)
    requires Indexed(crew)
    ensures var g := Claim(crew, d); Indexed(g.crew) && Truthful(crew, Effect(g.crew, g.events))
  {
    hide IsAvailable;
    var g := Claim(crew, d);
    if g.choice.Item? {
      WithOnce(crew.daemons[d].claimedItems, g.choice.p);
      AvailableIsOpen(crew, crew.items[g.choice.p]);
      OneEventTruthful(crew, Effect(g.crew, g.events), g.events[0]);
    }
  }

  lemma CompleteFacts(crew: Crew, d: DaemonId, p: ItemId)
    requires Indexed(crew)
    ensures var e := Complete(crew, d, p); Indexed(e.crew) && Truthful(crew, e)
  {
    var e := Complete(crew, d, p);
    if e.events != [] {
      RemoveOnce(crew.daemons[d].claimedItems, p);
      OneEventTruthful(crew, e, Completed(d, p));
    }
  }

  // ---- Expiry -----------------------------------------------------------------------------

  lemma {:induction false} AbandonEventsMean(crew: Crew, d: DaemonId, claimed: seq<ItemId>, p: ItemId)
    requires Indexed(crew) && NoDuplicates(claimed)
    ensures LiveAll(StandingOf(crew, p), AbandonEvents(crew, d, claimed), p)
         == if p in claimed && Owns(crew, d, p) then Free else StandingOf(crew, p)
  {
    if claimed != [] {
      hide NoDuplicates, WellFormed, LiveAll;
      var s := StandingOf(crew, p);
      var last := |claimed| - 1;
      var q := claimed[last];
      LastOnce(claimed);
      AbandonEventsMean(crew, d, claimed[..last], p);
      var before := AbandonEvents(crew, d, claimed[..last]);
      if Owns(crew, d, q) {
        LiveConcat(s, before, [Abandoned(d, q)], p);
        LiveOne(LiveAll(s, before, p), Abandoned(d, q), p);
      } else {
        assert before + [] == before;
      }
    }
  }

  lemma CheckDaemonIndexed(crew: Crew, d: DaemonId, opts: Options, now: int)
    requires Indexed(crew) && d in crew.daemons
    ensures Indexed(CheckDaemon(crew, d, opts, now).crew)
  {
    hide NoDuplicates, AbandonEvents;
  }

  /** The daemon's items after releaseDaemonWorkItems. */
  lemma ReleaseTruthful(crew: Crew, d: DaemonId, claimed: seq<ItemId>, freed: Crew)
    requires Indexed(crew) && NoDuplicates(claimed)
    requires freed.items == map p | p in crew.items :: Freed(crew.items[p], d, claimed)
    ensures Truthful(crew, Effect(freed, AbandonEvents(crew, d, claimed)))
  {
    hide NoDuplicates, AbandonEvents, LiveAll;
    forall p ensures LiveAll(StandingOf(crew, p), AbandonEvents(crew, d, claimed), p) == StandingOf(freed, p) {
      AbandonEventsMean(crew, d, claimed, p);
    }
  }

  lemma CheckDaemonFacts(crew: Crew, d: DaemonId, opts: Options, now: int)
    requires Indexed(crew) && d in crew.daemons
    ensures var e := CheckDaemon(crew, d, opts, now); Indexed(e.crew) && Truthful(crew, e)
  {
    hide NoDuplicates, AbandonEvents, LiveAll;
    CheckDaemonIndexed(crew, d, opts, now);
    var daemon := crew.daemons[d];
    var e := CheckDaemon(crew, d, opts, now);
    var lost := if TimedOut(daemon, opts, now) then [Disconnected(d)] else [];
    var freed := AbandonEvents(crew, d, daemon.claimedItems);
    assert Truthful(crew, Effect(crew, lost)) by {
      if TimedOut(daemon, opts, now) {
        OneEventTruthful(crew, Effect(crew, lost), Disconnected(d));
      } else {
        NoEventsTruthful(crew);
      }
    }
    if Expired(Polled(daemon, opts, now), opts, now) {
      ReleaseTruthful(crew, d, daemon.claimedItems, e.crew);
      ChainTruthful(crew, Effect(crew, lost), Effect(e.crew, freed));
    }
  }

  lemma {:induction false} CheckAllFacts(crew: Crew, order: seq<DaemonId>, opts: Options, now: int)
    requires Indexed(crew) && forall d :: d in order ==> d in crew.daemons
    ensures var e := CheckAll(crew, order, opts, now); Indexed(e.crew) && Truthful(crew, e)
  {
    if order != [] {
      hide Indexed, Truthful, CheckDaemon;
      var last := |order| - 1;
      CheckAllFacts(crew, order[..last], opts, now);
      var before := CheckAll(crew, order[..last], opts, now);
      CheckDaemonFacts(before.crew, order[last], opts, now);
      ChainTruthful(crew, before, CheckDaemon(before.crew, order[last], opts, now));
    }
  }

  /** Expiry frees everything the daemon owned. */
  lemma ExpiryFreesAll(crew: Crew, d: DaemonId, opts: Options, now: int, p: ItemId)
    requires Indexed(crew) && d in crew.daemons && Expired(Polled(crew.daemons[d], opts, now), opts, now)
    ensures !Owns(CheckDaemon(crew, d, opts, now).crew, d, p)
  {
  }

  lemma QuietTruthful(crew: Crew, next: Crew)
    requires next.items == crew.items
    ensures Truthful(crew, Effect(next, []))
  {
  }

  /** Main result: every step keeps the ownership index and logs exactly what it did to every item. */
  lemma StepFacts(opts: Options, crew: Crew, op: Op)
    requires Indexed(crew)
    ensures var e := Apply(opts, crew, op); Indexed(e.crew) && Truthful(crew, e)
  {
    hide Truthful, Connect, Disconnect, Sync, Claim, Complete, CheckAll;
    match op {
      case ConnectOp(d, name, operator, now) => ConnectFacts(crew, d, name, operator, now);
      case DisconnectOp(d, now) => DisconnectFacts(crew, d, now);
      case SyncOp(d, items, now) => SyncFacts(crew, d, items, now);
      case ClaimOp(d, _) => ClaimFacts(crew, d);
      case CompleteOp(d, p, _) => CompleteFacts(crew, d, p);
      case HeartbeatOp(d, now) => QuietTruthful(crew, Heartbeat(crew, d, now));
      case CheckOp(now) => CheckAllFacts(crew, crew.daemonOrder, opts, now);
      case RestartOp(_) => QuietTruthful(crew, Apply(opts, crew, op).crew);
    }
  }
}
