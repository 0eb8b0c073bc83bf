/**
 * The crew broker's claim protocol (core/broker-state.ts) as functions of the crew: each is the
 * specification its method of class CrewState is proved against.
 */
module Broker {
  type ItemId = nat
  type DaemonId = nat

  datatype Owner = NoOne | By(daemon: DaemonId)

  datatype Stamp = Never | At(ms: int)

  /** WorkEntry. */
  datatype Entry = Entry(
    path: ItemId,
    priority: int,
    dependencies: seq<ItemId>,
    author: string,
    syncedAt: int,
    creator: DaemonId,
    claimedBy: Owner,
    completedBy: Owner)

  /** DaemonState; `live` says that a socket is attached, `claimedItems` is a set in insertion order. */
  datatype Daemon = Daemon(
    id: DaemonId,
    name: string,
    operator: string,
    live: bool,
    lastHeartbeat: int,
    disconnectedAt: Stamp,
    claimedItems: seq<ItemId>,
    released: bool)

  /** CrewState: two maps with their insertion orders. */
  datatype Crew = Crew(items: map<ItemId, Entry>, order: seq<ItemId>, daemons: map<DaemonId, Daemon>, daemonOrder: seq<DaemonId>)

  /** A work item as a daemon reports it. */
  datatype SyncItem = SyncItem(id: ItemId, priority: int, dependencies: seq<ItemId>, author: string)

  datatype Event =
    | Claimed(daemon: DaemonId, item: ItemId, byAuthor: bool)
    | Synced(daemon: DaemonId, item: ItemId)
    | Completed(daemon: DaemonId, item: ItemId)
    | Disconnected(daemon: DaemonId)
    | Reconnected(daemon: DaemonId)
    | Abandoned(daemon: DaemonId, item: ItemId)
    | ReconcileCompleted(daemon: DaemonId, item: ItemId)

  /** ReconnectStateMessage. */
  datatype Split = NoSplit | Split(resumed: seq<ItemId>, released: seq<ItemId>, reclaimed: seq<ItemId>)

  datatype Options = Options(heartbeatTimeoutMs: int, gracePeriodMs: int)

  datatype Effect = Effect(crew: Crew, events: seq<Event>)

  function EmptyCrew(): Crew {
    Crew(map[], [], map[], [])
  }

  predicate NoDuplicates<T(==)>(s: seq<T>) {
    forall i, j :: 0 <= i < j < |s| ==> s[i] != s[j]
  }

  /** The orders list the keys once, the values carry their keys. */
  ghost predicate WellFormed(crew: Crew) {
    && NoDuplicates(crew.order) && (forall p :: p in crew.order <==> p in crew.items)
    && NoDuplicates(crew.daemonOrder) && (forall d :: d in crew.daemonOrder <==> d in crew.daemons)
    && (forall p :: p in crew.items ==> crew.items[p].path == p)
    && (forall d :: d in crew.daemons ==> crew.daemons[d].id == d && NoDuplicates(crew.daemons[d].claimedItems))
  }

  // ---- Availability -----------------------------------------------------------------------

  predicate DependencyMet(crew: Crew, dep: ItemId) {
    dep !in crew.items || crew.items[dep].completedBy.By?
  }

  /** isWorkItemAvailable. */
  predicate IsAvailable(crew: Crew, e: Entry) {
    e.claimedBy.NoOne? && e.completedBy.NoOne? && forall i :: 0 <= i < |e.dependencies| ==> DependencyMet(crew, e.dependencies[i])
  }

  // ---- Connections ------------------------------------------------------------------------

  function Remove<T(==,!new)>(s: seq<T>, x: T): (r: seq<T>)
    ensures forall y :: y in r <==> y in s && y != x
  {
    if s == [] then [] else (if s[0] == x then [] else [s[0]]) + Remove(s[1..], x)
  }

  predicate Owns(crew: Crew, d: DaemonId, p: ItemId) {
    p in crew.items && crew.items[p].claimedBy == By(d)
  }

  predicate TakenOver(crew: Crew, d: DaemonId, p: ItemId) {
    p in crew.items && crew.items[p].claimedBy.By? && crew.items[p].claimedBy != By(d)
  }

  /** The items of a list that daemon `d` still owns. */
  function Resumed(crew: Crew, d: DaemonId, claimed: seq<ItemId>): (r: seq<ItemId>)
    ensures forall p :: p in r <==> p in claimed && Owns(crew, d, p)
  {
    if claimed == [] then []
    else
      var last := |claimed| - 1;
      Resumed(crew, d, claimed[..last]) + (if Owns(crew, d, claimed[last]) then [claimed[last]] else [])
  }

  /** Those another daemon claimed meanwhile. */
  function Reclaimed(crew: Crew, d: DaemonId, claimed: seq<ItemId>): (r: seq<ItemId>)
    ensures forall p :: p in r <==> p in claimed && TakenOver(crew, d, p)
  {
    if claimed == [] then []
    else
      var last := |claimed| - 1;
      Reclaimed(crew, d, claimed[..last]) + (if TakenOver(crew, d, claimed[last]) then [claimed[last]] else [])
  }

  /** The rest. */
  function Released(crew: Crew, d: DaemonId, claimed: seq<ItemId>): (r: seq<ItemId>)
    ensures forall p :: p in r <==> p in claimed && !Owns(crew, d, p) && !TakenOver(crew, d, p)
  {
    if claimed == [] then []
    else
      var last := |claimed| - 1;
      var p := claimed[last];
      Released(crew, d, claimed[..last]) + (if Owns(crew, d, p) || TakenOver(crew, d, p) then [] else [p])
  }

  datatype Connection = Connection(crew: Crew, split: Split, events: seq<Event>)

  /** connectDaemon. */
  function Connect(crew: Crew, d: DaemonId, name: string, operator: string, now: int): Connection {
    if d !in crew.daemons then
      var joined := Daemon(d, name, operator, true, now, Never, [], false);
      Connection(crew.(daemons := crew.daemons[d := joined], daemonOrder := crew.daemonOrder + [d]), NoSplit, [])
    else
      var existing := crew.daemons[d];
      var linked := existing.(live := true, lastHeartbeat := now, disconnectedAt := Never, released := false, name := name,
                              operator := operator);
      if existing.disconnectedAt.Never? && !existing.released then
        Connection(crew.(daemons := crew.daemons[d := linked]), NoSplit, [])
      else
        var claimed := existing.claimedItems;
        var resumed := Resumed(crew, d, claimed);
        Connection(crew.(daemons := crew.daemons[d := linked.(claimedItems := resumed)]),
                   Split(resumed, Released(crew, d, claimed), Reclaimed(crew, d, claimed)),
                   [Reconnected(d)])
  }

  /** disconnectDaemon. */
  function Disconnect(crew: Crew, d: DaemonId, now: int): Effect {
    if d !in crew.daemons || !crew.daemons[d].live then Effect(crew, [])
    else
      var gone := crew.daemons[d].(live := false, disconnectedAt := At(now));
      Effect(crew.(daemons := crew.daemons[d := gone]), [Disconnected(d)])
  }

  // ---- Synchronisation --------------------------------------------------------------------

  /** One reported item: refresh the known entry or add a new one. */
  function Merge(crew: Crew, d: DaemonId, item: SyncItem, now: int): Effect {
    if item.id in crew.items then
      var refreshed := crew.items[item.id].(priority := item.priority, dependencies := item.dependencies, author := item.author);
      Effect(crew.(items := crew.items[item.id := refreshed]), [])
    else
      var added := Entry(item.id, item.priority, item.dependencies, item.author, now, d, NoOne, NoOne);
      Effect(crew.(items := crew.items[item.id := added], order := crew.order + [item.id]), [Synced(d, item.id)])
  }

  function MergeAll(crew: Crew, d: DaemonId, items: seq<SyncItem>, now: int): Effect {
    if items == [] then Effect(crew, [])
    else
      var last := |items| - 1;
      var before := MergeAll(crew, d, items[..last], now);
      var merged := Merge(before.crew, d, items[last], now);
      Effect(merged.crew, before.events + merged.events)
  }

  predicate Reported(items: seq<SyncItem>, p: ItemId) {
    exists i :: 0 <= i < |items| && items[i].id == p
  }

  /** The creator no longer reports an item that is not completed. */
  predicate Vanished(e: Entry, d: DaemonId, items: seq<SyncItem>) {
    e.creator == d && !Reported(items, e.path) && e.completedBy.NoOne?
  }

  function Reconciled(e: Entry, d: DaemonId, items: seq<SyncItem>): Entry {
    if Vanished(e, d, items) then e.(completedBy := By(d), claimedBy := NoOne) else e
  }

  /** The reconcile_complete events of the listed items, in order. */
  function ReconcileEvents(crew: Crew, order: seq<ItemId>, d: DaemonId, items: seq<SyncItem>): seq<Event>
    requires forall p :: p in order ==> p in crew.items
  {
    if order == [] then []
    else
      var last := |order| - 1;
      ReconcileEvents(crew, order[..last], d, items)
      + (if Vanished(crew.items[order[last]], d, items) then [ReconcileCompleted(d, order[last])] else [])
  }

  /** syncCrewItems. */
  function Sync(crew: Crew, d: DaemonId, items: seq<SyncItem>, now: int): Effect
    requires WellFormed(crew)
  {
    MergeWellFormed(crew, d, items, now);
    var merged := MergeAll(crew, d, items, now);
    Effect(merged.crew.(items := map p | p in merged.crew.items :: Reconciled(merged.crew.items[p], d, items)),
           merged.events + ReconcileEvents(merged.crew, merged.crew.order, d, items))
  }

  lemma {:induction false} MergeWellFormed(crew: Crew, d: DaemonId, items: seq<SyncItem>, now: int)
    requires WellFormed(crew)
    ensures WellFormed(MergeAll(crew, d, items, now).crew)
  {
    if items != [] {
      MergeWellFormed(crew, d, items[..|items| - 1], now);
    }
  }

  // ---- Claims -----------------------------------------------------------------------------

  predicate ByAuthor(operator: string, e: Entry) {
    operator != "" && e.author == operator
  }

  /** The comparator of claimNextWorkItem: own items, then priority, then age. */
  predicate ClaimsBefore(operator: string, a: Entry, b: Entry) {
    if ByAuthor(operator, a) != ByAuthor(operator, b) then ByAuthor(operator, a)
    else if a.priority != b.priority then a.priority < b.priority
    else a.syncedAt < b.syncedAt
  }

  datatype Choice = Nothing | Item(p: ItemId)

  /** The first of the listed available items that no other one comes before. */
  function Best(crew: Crew, operator: string, order: seq<ItemId>): (c: Choice)
    requires forall p :: p in order ==> p in crew.items
    ensures c.Item? ==> c.p in order && IsAvailable(crew, crew.items[c.p])
  {
    if order == [] then Nothing
    else
      var last := |order| - 1;
      var best := Best(crew, operator, order[..last]);
      var p := order[last];
      if IsAvailable(crew, crew.items[p]) && (best.Nothing? || ClaimsBefore(operator, crew.items[p], crew.items[best.p])) then Item(p)
      else best
  }

  datatype Grant = Grant(crew: Crew, choice: Choice, events: seq<Event>)

  /** `Set.add`. */
  function With<T(==)>(s: seq<T>, x: T): seq<T> {
    if x in s then s else s + [x]
  }

  /** claimNextWorkItem. */
  function Claim(crew: Crew, d: DaemonId): (g: Grant)
    requires WellFormed(crew)
    ensures g.choice.Item? ==> g.choice.p in crew.items && IsAvailable(crew, crew.items[g.choice.p]) && d in crew.daemons
  {
    if d !in crew.daemons then Grant(crew, Nothing, [])
    else
      var daemon := crew.daemons[d];
      var best := Best(crew, daemon.operator, crew.order);
      if best.Nothing? then Grant(crew, Nothing, [])
      else
        var e := crew.items[best.p];
        Grant(crew.(items := crew.items[best.p := e.(claimedBy := By(d))],
                    daemons := crew.daemons[d := daemon.(claimedItems := With(daemon.claimedItems, best.p))]),
              best, [Claimed(d, best.p, ByAuthor(daemon.operator, e))])
  }

  /** completeWorkItem; no event means that it was refused. */
  function Complete(crew: Crew, d: DaemonId, p: ItemId): Effect {
    if !Owns(crew, d, p) then Effect(crew, [])
    else
      var daemons := if d in crew.daemons then
                       crew.daemons[d := crew.daemons[d].(claimedItems := Remove(crew.daemons[d].claimedItems, p))]
                     else crew.daemons;
      Effect(crew.(items := crew.items[p := crew.items[p].(completedBy := By(d), claimedBy := NoOne)], daemons := daemons),
             [Completed(d, p)])
  }

  /** recordHeartbeat. */
  function Heartbeat(crew: Crew, d: DaemonId, now: int): Crew {
    if d !in crew.daemons then crew else crew.(daemons := crew.daemons[d := crew.daemons[d].(lastHeartbeat := now)])
  }

  // ---- Expiry -----------------------------------------------------------------------------

  /** The abandon events of releaseDaemonWorkItems. */
  function AbandonEvents(crew: Crew, d: DaemonId, claimed: seq<ItemId>): seq<Event> {
    if claimed == [] then []
    else
      var last := |claimed| - 1;
      AbandonEvents(crew, d, claimed[..last]) + (if Owns(crew, d, claimed[last]) then [Abandoned(d, claimed[last])] else [])
  }

  function Freed(e: Entry, d: DaemonId, claimed: seq<ItemId>): Entry {
    if e.claimedBy == By(d) && e.path in claimed then e.(claimedBy := NoOne) else e
  }

  predicate TimedOut(daemon: Daemon, opts: Options, now: int) {
    daemon.live && now - daemon.lastHeartbeat > opts.heartbeatTimeoutMs
  }

  /** The daemon after the heartbeat test of checkCrewHeartbeats. */
  function Polled(daemon: Daemon, opts: Options, now: int): Daemon {
    if TimedOut(daemon, opts, now) then daemon.(live := false, disconnectedAt := At(now)) else daemon
  }

  /** The grace period is over and the items are not released yet. */
  predicate Expired(daemon: Daemon, opts: Options, now: int) {
    && daemon.disconnectedAt.At? && !daemon.live && !daemon.released
    && now - daemon.disconnectedAt.ms > opts.gracePeriodMs
  }

  /** One daemon's turn in checkCrewHeartbeats. */
  function CheckDaemon(crew: Crew, d: DaemonId, opts: Options, now: int): Effect
    requires d in crew.daemons
  {
    var daemon := crew.daemons[d];
    var polled := Polled(daemon, opts, now);
    var lost := if TimedOut(daemon, opts, now) then [Disconnected(d)] else [];
    if !Expired(polled, opts, now) then Effect(crew.(daemons := crew.daemons[d := polled]), lost)
    else
      Effect(crew.(items := map p | p in crew.items :: Freed(crew.items[p], d, polled.claimedItems),
                   daemons := crew.daemons[d := polled.(released := true)]),
             lost + AbandonEvents(crew, d, polled.claimedItems))
  }

  /** The loop of checkCrewHeartbeats over the listed daemons. */
  function CheckAll(crew: Crew, order: seq<DaemonId>, opts: Options, now: int): (e: Effect)
    requires forall d :: d in order ==> d in crew.daemons
    ensures e.crew.daemons.Keys == crew.daemons.Keys
    ensures e.crew.items.Keys == crew.items.Keys
  {
    if order == [] then Effect(crew, [])
    else
      var last := |order| - 1;
      var before := CheckAll(crew, order[..last], opts, now);
      var checked := CheckDaemon(before.crew, order[last], opts, now);
      Effect(checked.crew, before.events + checked.events)
  }

  /** checkCrewHeartbeats. */
  function Check(crew: Crew, opts: Options, now: int): Effect
    requires WellFormed(crew)
  {
    CheckAll(crew, crew.daemonOrder, opts, now)
  }

  // ---- Steps ------------------------------------------------------------------------------

  /** A restart reads the stored crew: every socket is gone, nothing else changes. */
  function Restart(crew: Crew): Crew {
    crew.(daemons := map d | d in crew.daemons :: crew.daemons[d].(live := false))
  }

  datatype Op =
    | ConnectOp(daemon: DaemonId, name: string, operator: string, now: int)
    | DisconnectOp(daemon: DaemonId, now: int)
    | SyncOp(daemon: DaemonId, items: seq<SyncItem>, now: int)
    | ClaimOp(daemon: DaemonId, now: int)
    | CompleteOp(daemon: DaemonId, item: ItemId, now: int)
    | HeartbeatOp(daemon: DaemonId, now: int)
    | CheckOp(now: int)
    | RestartOp(now: int)

  function Apply(opts: Options, crew: Crew, op: Op): Effect
    requires WellFormed(crew)
  {
    match op
    case ConnectOp(d, name, operator, now) => var c := Connect(crew, d, name, operator, now); Effect(c.crew, c.events)
    case DisconnectOp(d, now) => Disconnect(crew, d, now)
    case SyncOp(d, items, now) => Sync(crew, d, items, now)
    case ClaimOp(d, _) => var g := Claim(crew, d); Effect(g.crew, g.events)
    case CompleteOp(d, p, _) => Complete(crew, d, p)
    case HeartbeatOp(d, now) => Effect(Heartbeat(crew, d, now), [])
    case CheckOp(now) => Check(crew, opts, now)
    case RestartOp(_) => Effect(Restart(crew), [])
  }
}
