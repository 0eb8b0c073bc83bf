/**
 * When the broker lets go of work: abandonment only after the grace period, a bound on how long a
 * silent daemon keeps its items, and the restart after which it keeps them for ever.
 */
module BrokerTiming {
  import opened Broker
  import opened BrokerFacts
  import opened BrokerRuns

  // ---- One check, in closed form ----------------------------------------------------------

  /** A daemon after a whole check. */
  function Checked(daemon: Daemon, opts: Options, now: int): Daemon {
    var polled := Polled(daemon, opts, now);
    if Expired(polled, opts, now) then polled.(released := true) else polled
  }

  predicate Expires(crew: Crew, d: DaemonId, opts: Options, now: int) {
    d in crew.daemons && Expired(Polled(crew.daemons[d], opts, now), opts, now)
  }

  /** Daemon `d` and what it owns depend on its own turn only. */
  lemma CheckDaemonTurn(crew: Crew, e: DaemonId, d: DaemonId, opts: Options, now: int)
    requires Indexed(crew) && e in crew.daemons && d in crew.daemons
    ensures var next := CheckDaemon(crew, e, opts, now).crew;
      && d in next.daemons
      && next.daemons[d] == (if d == e then Checked(crew.daemons[d], opts, now) else crew.daemons[d])
      && forall p :: Owns(next, d, p) <==> Owns(crew, d, p) && !(d == e && Expires(crew, d, opts, now))
  {
    hide NoDuplicates, AbandonEvents;
  }

  lemma {:induction false} CheckAllTurns(crew: Crew, order: seq<DaemonId>, d: DaemonId, opts: Options, now: int)
    requires Indexed(crew) && d in crew.daemons && NoDuplicates(order) && forall e :: e in order ==> e in crew.daemons
    ensures var next := CheckAll(crew, order, opts, now).crew;
      && d in next.daemons
      && next.daemons[d] == (if d in order then Checked(crew.daemons[d], opts, now) else crew.daemons[d])
      && forall p :: Owns(next, d, p) <==> Owns(crew, d, p) && !(d in order && Expires(crew, d, opts, now))
  {
    hide Indexed, CheckDaemon, Checked, NoDuplicates, Owns, Expired, Polled;
    if order != [] {
      var last := |order| - 1;
      LastOnce(order);
      CheckAllTurns(crew, order[..last], d, opts, now);
      CheckAllFacts(crew, order[..last], opts, now);
      var before := CheckAll(crew, order[..last], opts, now);
      CheckDaemonTurn(before.crew, order[last], d, opts, now);
    }
  }

  /** A check in closed form: every daemon is polled and, when its grace is over, loses everything it owned. */
  lemma CheckExactly(crew: Crew, d: DaemonId, opts: Options, now: int)
    requires Indexed(crew) && d in crew.daemons
    ensures var next := Check(crew, opts, now).crew;
      && d in next.daemons && next.daemons[d] == Checked(crew.daemons[d], opts, now)
      && forall p :: Owns(next, d, p) <==> Owns(crew, d, p) && !Expires(crew, d, opts, now)
  {
    hide Checked, Owns, Expired, Polled;
    CheckAllTurns(crew, crew.daemonOrder, d, opts, now);
  }

  // ---- Abandonment only after the grace period --------------------------------------------

  lemma {:induction false} AbandonEventsOwn(crew: Crew, d: DaemonId, claimed: seq<ItemId>)
    ensures forall e :: e in AbandonEvents(crew, d, claimed) ==> e.Abandoned? && e.daemon == d
  {
    if claimed != [] {
      AbandonEventsOwn(crew, d, claimed[..|claimed| - 1]);
    }
  }

  lemma {:induction false} AbandonedByExpiry(crew: Crew, order: seq<DaemonId>, opts: Options, now: int, d: DaemonId, p: ItemId)
    requires Indexed(crew) && NoDuplicates(order) && forall e :: e in order ==> e in crew.daemons
    requires Abandoned(d, p) in CheckAll(crew, order, opts, now).events
    ensures Expires(crew, d, opts, now)
  {
    hide Indexed, NoDuplicates, Owns, Checked;
    var last := |order| - 1;
    LastOnce(order);
    var before := CheckAll(crew, order[..last], opts, now);
    if Abandoned(d, p) in before.events {
      AbandonedByExpiry(crew, order[..last], opts, now, d, p);
    } else {
      CheckAllFacts(crew, order[..last], opts, now);
      CheckAllTurns(crew, order[..last], order[last], opts, now);
      AbandonEventsOwn(before.crew, order[last], Polled(before.crew.daemons[order[last]], opts, now).claimedItems);
    }
  }

  /** What last happened to a daemon's socket. */
  datatype Link = NeverLinked | LinkedAt(since: int) | LostAt(since: int)

  /** The daemon's last connect or disconnect in a run. */
  ghost function LinkOf(opts: Options, ops: seq<Op>, d: DaemonId): Link {
    if ops == [] then NeverLinked
    else
      var op := ops[|ops| - 1];
      var before := RunOps(opts, ops[..|ops| - 1]).crew;
      if op.ConnectOp? && op.daemon == d then LinkedAt(op.now)
      else if Disconnected(d) in Apply(opts, before, op).events then LostAt(op.now)
      else LinkOf(opts, ops[..|ops| - 1], d)
  }

  /** The stamp of a daemon is that of its last disconnect. */
  ghost predicate LinkShows(crew: Crew, d: DaemonId, link: Link) {
    match link
    case NeverLinked => d !in crew.daemons
    case LinkedAt(_) => d in crew.daemons && crew.daemons[d].disconnectedAt.Never?
    case LostAt(t) => d in crew.daemons && crew.daemons[d].disconnectedAt == At(t)
  }

  lemma {:induction false} CheckDisconnects(crew: Crew, order: seq<DaemonId>, opts: Options, now: int, d: DaemonId)
    requires Indexed(crew) && NoDuplicates(order) && forall e :: e in order ==> e in crew.daemons
    ensures Disconnected(d) in CheckAll(crew, order, opts, now).events <==> d in order && TimedOut(crew.daemons[d], opts, now)
  {
    hide Indexed, NoDuplicates, Owns, Checked, AbandonEvents;
    if order != [] {
      var last := |order| - 1;
      LastOnce(order);
      CheckDisconnects(crew, order[..last], opts, now, d);
      CheckAllFacts(crew, order[..last], opts, now);
      CheckAllTurns(crew, order[..last], order[last], opts, now);
      var before := CheckAll(crew, order[..last], opts, now);
      AbandonEventsOwn(before.crew, order[last], Polled(before.crew.daemons[order[last]], opts, now).claimedItems);
    }
  }

  lemma {:induction false} SyncKeepsDaemons(crew: Crew, d: DaemonId, items: seq<SyncItem>, now: int)
    requires WellFormed(crew)
    ensures MergeAll(crew, d, items, now).crew.daemons == crew.daemons
    ensures forall e :: e in MergeAll(crew, d, items, now).events ==> e.Synced?
  {
    if items != [] {
      SyncKeepsDaemons(crew, d, items[..|items| - 1], now);
    }
  }

  lemma {:induction false} ReconcileOnly(crew: Crew, order: seq<ItemId>, d: DaemonId, items: seq<SyncItem>)
    requires forall p :: p in order ==> p in crew.items
    ensures forall e :: e in ReconcileEvents(crew, order, d, items) ==> e.ReconcileCompleted?
  {
    if order != [] {
      ReconcileOnly(crew, order[..|order| - 1], d, items);
    }
  }

  lemma LinkStep(opts: Options, crew: Crew, op: Op, d: DaemonId, link: Link)
    requires Indexed(crew) && LinkShows(crew, d, link)
    ensures var step := Apply(opts, crew, op);
      LinkShows(step.crew, d, if op.ConnectOp? && op.daemon == d then LinkedAt(op.now)
                              else if Disconnected(d) in step.events then LostAt(op.now) else link)
  {
    hide NoDuplicates, CheckAll, MergeAll, Best, Resumed, Released, Reclaimed, Remove, ReconcileEvents, Expired;
    match op {
      case SyncOp(e, items, now) =>
        SyncKeepsDaemons(crew, e, items, now);
        MergeWellFormed(crew, e, items, now);
        var merged := MergeAll(crew, e, items, now);
        ReconcileOnly(merged.crew, merged.crew.order, e, items);
      case CheckOp(now) =>
        CheckDisconnects(crew, crew.daemonOrder, opts, now, d);
        if d in crew.daemons {
          CheckExactly(crew, d, opts, now);
        }
      case _ =>
    }
  }

  lemma {:induction false} LinkInvariant(opts: Options, ops: seq<Op>, d: DaemonId)
    ensures LinkShows(RunOps(opts, ops).crew, d, LinkOf(opts, ops, d))
  {
    hide Apply, WellFormed;
    if ops != [] {
      var last := |ops| - 1;
      LinkInvariant(opts, ops[..last], d);
      LinkStep(opts, RunOps(opts, ops[..last]).crew, ops[last], d, LinkOf(opts, ops[..last], d));
    }
  }

  lemma OnlyChecksAbandon(opts: Options, crew: Crew, op: Op, d: DaemonId, p: ItemId)
    requires Indexed(crew) && Abandoned(d, p) in Apply(opts, crew, op).events
    ensures op.CheckOp? && Expires(crew, d, opts, op.now)
  {
    hide NoDuplicates, CheckAll, MergeAll, Best, Resumed, Released, Reclaimed, Remove, ReconcileEvents, Expired;
    match op {
      case SyncOp(e, items, now) =>
        SyncKeepsDaemons(crew, e, items, now);
        MergeWellFormed(crew, e, items, now);
        var merged := MergeAll(crew, e, items, now);
        ReconcileOnly(merged.crew, merged.crew.order, e, items);
      case CheckOp(now) => AbandonedByExpiry(crew, crew.daemonOrder, opts, now, d, p);
      case _ =>
    }
  }

  /**
   * Main result: in any run, an item is abandoned only by a check that comes more than the grace
   * period after its owner's last disconnect, with no connect since.
   */
  lemma AbandonedAfterGrace(opts: Options, ops: seq<Op>, d: DaemonId, p: ItemId)
    requires ops != [] && opts.gracePeriodMs >= 0
    requires Abandoned(d, p) in Apply(opts, RunOps(opts, ops[..|ops| - 1]).crew, ops[|ops| - 1]).events
    ensures var op, link := ops[|ops| - 1], LinkOf(opts, ops[..|ops| - 1], d);
      op.CheckOp? && link.LostAt? && op.now - link.since > opts.gracePeriodMs
  {
    hide Apply, RunOps, LinkOf, WellFormed;
    var before := ops[..|ops| - 1];
    OnlyChecksAbandon(opts, RunOps(opts, before).crew, ops[|ops| - 1], d, p);
    LinkInvariant(opts, before, d);
  }

  // ---- A silent daemon --------------------------------------------------------------------

  /** The crew after some operations, from any crew that keeps the ownership index. */
  ghost function After(opts: Options, crew: Crew, ops: seq<Op>): (next: Crew)
    requires Indexed(crew)
    ensures Indexed(next)
  {
    if ops == [] then crew
    else
      StepFacts(opts, After(opts, crew, ops[..|ops| - 1]), ops[|ops| - 1]);
      Apply(opts, After(opts, crew, ops[..|ops| - 1]), ops[|ops| - 1]).crew
  }

  /** The daemon claims through a live socket only; an unknown daemon's claim does nothing. */
  predicate ClaimsLive(crew: Crew, op: Op, d: DaemonId) {
    op.ClaimOp? && op.daemon == d && d in crew.daemons ==> crew.daemons[d].live
  }

  /** The broker is not restarted, `d` neither connects nor sends a heartbeat, and claims only through a live socket. */
  predicate Silent(crew: Crew, op: Op, d: DaemonId) {
    && !op.RestartOp?
    && !(op.ConnectOp? && op.daemon == d)
    && !(op.HeartbeatOp? && op.daemon == d)
    && ClaimsLive(crew, op, d)
  }

  ghost predicate SilentFrom(opts: Options, crew: Crew, ops: seq<Op>, d: DaemonId)
    requires Indexed(crew)
  {
    forall k :: 0 <= k < |ops| ==> Silent(After(opts, crew, ops[..k]), ops[k], d)
  }

  predicate InTime(ops: seq<Op>) {
    forall i, j :: 0 <= i < j < |ops| ==> ops[i].now <= ops[j].now
  }

  /** How far the broker has got with a daemon that was last heard of at `heard`. */
  ghost predicate Fading(crew: Crew, d: DaemonId, heard: int) {
    && d in crew.daemons
    && crew.daemons[d].lastHeartbeat <= heard
    && (crew.daemons[d].live <==> crew.daemons[d].disconnectedAt.Never?)
    && (crew.daemons[d].released ==> !crew.daemons[d].live && forall p :: !Owns(crew, d, p))
  }

  ghost predicate Lost(crew: Crew, d: DaemonId, heard: int, lostBy: int) {
    Fading(crew, d, heard) && !crew.daemons[d].live && crew.daemons[d].disconnectedAt.ms <= lostBy
  }

  ghost predicate Gone(crew: Crew, d: DaemonId, heard: int) {
    Fading(crew, d, heard) && crew.daemons[d].released
  }

  /** A daemon gains items by its own claims only. */
  lemma OwnsShrinks(opts: Options, crew: Crew, op: Op, d: DaemonId, p: ItemId)
    requires Indexed(crew) && !(op.ClaimOp? && op.daemon == d)
    ensures Owns(Apply(opts, crew, op).crew, d, p) ==> Owns(crew, d, p)
  {
    hide NoDuplicates, CheckAll, MergeAll, Best, Resumed, Released, Reclaimed, Remove, ReconcileEvents;
    match op {
      case SyncOp(e, items, now) =>
        MergeWellFormed(crew, e, items, now);
        MergeKeepsOwners(crew, e, items, now, d, p);
      case CheckOp(now) =>
        if d in crew.daemons {
          CheckExactly(crew, d, opts, now);
        } else {
          CheckAllStrangers(crew, crew.daemonOrder, opts, now, d, p);
        }
      case _ =>
    }
  }

  lemma {:induction false} CheckAllStrangers(crew: Crew, order: seq<DaemonId>, opts: Options, now: int, d: DaemonId, p: ItemId)
    requires forall e :: e in order ==> e in crew.daemons
    ensures Owns(CheckAll(crew, order, opts, now).crew, d, p) ==> Owns(crew, d, p)
  {
    if order != [] {
      CheckAllStrangers(crew, order[..|order| - 1], opts, now, d, p);
    }
  }

  /** What a silent step does to the daemon's record. */
  lemma SilentStep(opts: Options, crew: Crew, op: Op, d: DaemonId)
    requires Indexed(crew) && d in crew.daemons && Silent(crew, op, d)
    ensures var next := Apply(opts, crew, op).crew;
      && d in next.daemons
      && var was, left := crew.daemons[d], next.daemons[d];
      if op.CheckOp? then left == Checked(was, opts, op.now)
      else
        || left == was.(claimedItems := left.claimedItems)
        || (was.live && left == was.(live := false, disconnectedAt := At(op.now)))
  {
    hide NoDuplicates, CheckAll, MergeAll, Best, Resumed, Released, Reclaimed, Remove, ReconcileEvents;
    match op {
      case SyncOp(e, items, now) =>
        SyncKeepsDaemons(crew, e, items, now);
        MergeWellFormed(crew, e, items, now);
      case CheckOp(now) => CheckExactly(crew, d, opts, now);
      case _ =>
    }
  }

  lemma CheckApplied(opts: Options, crew: Crew, now: int)
    requires WellFormed(crew)
    ensures Apply(opts, crew, CheckOp(now)) == Check(crew, opts, now)
  {
  }

  /** Every step keeps the stage a silent daemon is in. */
  lemma StageStays(opts: Options, crew: Crew, op: Op, d: DaemonId, heard: int, lostBy: int)
    requires Indexed(crew) && Fading(crew, d, heard) && Silent(crew, op, d) && opts.gracePeriodMs >= 0
    ensures var next := Apply(opts, crew, op).crew;
      && Fading(next, d, heard)
      && (Lost(crew, d, heard, lostBy) ==> Lost(next, d, heard, lostBy))
      && (Gone(crew, d, heard) ==> Gone(next, d, heard))
  {
    hide Apply, WellFormed, Owns;
    SilentStep(opts, crew, op, d);
    var next := Apply(opts, crew, op).crew;
    forall p | !(op.ClaimOp? && op.daemon == d) ensures Owns(next, d, p) ==> Owns(crew, d, p) {
      OwnsShrinks(opts, crew, op, d, p);
    }
    if op.CheckOp? {
      CheckApplied(opts, crew, op.now);
      CheckExactly(crew, d, opts, op.now);
    }
  }

  lemma {:induction false} MergeKeepsOwners(crew: Crew, e: DaemonId, items: seq<SyncItem>, now: int, d: DaemonId, p: ItemId)
    ensures Owns(MergeAll(crew, e, items, now).crew, d, p) ==> Owns(crew, d, p)
  {
    if items != [] {
      MergeKeepsOwners(crew, e, items[..|items| - 1], now, d, p);
    }
  }

  /** A check after the timeout finds the daemon lost, and one after the grace period releases it. */
  lemma CheckAdvances(opts: Options, crew: Crew, now: int, d: DaemonId, heard: int, lostBy: int)
    requires Indexed(crew) && Fading(crew, d, heard) && opts.gracePeriodMs >= 0
    ensures var next := Check(crew, opts, now).crew;
      && (now > heard + opts.heartbeatTimeoutMs && (crew.daemons[d].live || crew.daemons[d].disconnectedAt.ms <= now) ==>
            Lost(next, d, heard, now))
      && (Lost(crew, d, heard, lostBy) && now > lostBy + opts.gracePeriodMs ==> Gone(next, d, heard))
  {
    hide NoDuplicates, CheckAll;
    CheckExactly(crew, d, opts, now);
  }

  /** No stamp lies in the future. */
  ghost predicate Stamped(crew: Crew, d: DaemonId, now: int) {
    d in crew.daemons && crew.daemons[d].disconnectedAt.At? ==> crew.daemons[d].disconnectedAt.ms <= now
  }

  lemma StampStep(opts: Options, crew: Crew, op: Op, d: DaemonId)
    requires Indexed(crew) && d in crew.daemons && Stamped(crew, d, op.now)
    ensures Stamped(Apply(opts, crew, op).crew, d, op.now)
  {
    hide NoDuplicates, CheckAll, MergeAll, Best, Resumed, Released, Reclaimed, Remove, ReconcileEvents;
    match op {
      case SyncOp(e, items, now) =>
        SyncKeepsDaemons(crew, e, items, now);
        MergeWellFormed(crew, e, items, now);
      case CheckOp(now) => CheckExactly(crew, d, opts, now);
      case _ =>
    }
  }

  /** The stage a silent daemon has reached: lost once `lost`, gone once `gone`. */
  ghost predicate Reached(crew: Crew, d: DaemonId, heard: int, now: int, lostBy: int, lost: bool, gone: bool) {
    && Fading(crew, d, heard) && Stamped(crew, d, now)
    && (lost ==> Lost(crew, d, heard, lostBy))
    && (gone ==> Gone(crew, d, heard))
  }

  /** A step keeps the stage; a check late enough reaches the next one. */
  lemma StageStep(opts: Options, crew: Crew, op: Op, d: DaemonId, heard: int, at: int, lostBy: int, lost: bool, gone: bool)
    requires Indexed(crew) && Reached(crew, d, heard, at, lostBy, lost, gone) && Silent(crew, op, d) && at <= op.now
    requires opts.gracePeriodMs >= 0
    ensures var next := Apply(opts, crew, op).crew;
      && Reached(next, d, heard, op.now, lostBy, lost, gone)
      && (op.CheckOp? && op.now == lostBy && lostBy > heard + opts.heartbeatTimeoutMs ==> Lost(next, d, heard, lostBy))
      && (op.CheckOp? && lost && op.now > lostBy + opts.gracePeriodMs ==> Gone(next, d, heard))
  {
    hide Lost, Gone, Silent, WellFormed;
    assert Stamped(crew, d, op.now);
    StageStays(opts, crew, op, d, heard, lostBy);
    StampStep(opts, crew, op, d);
    if op.CheckOp? {
      CheckAdvances(opts, crew, op.now, d, heard, lostBy);
    }
  }

  /** The stages over a silent stretch: position `a` is a check after the timeout, `b` one after the grace period. */
  lemma {:induction false} Stages(opts: Options, crew: Crew, ops: seq<Op>, d: DaemonId, heard: int, a: nat, b: nat, n: nat)
    requires Indexed(crew) && Fading(crew, d, heard) && Stamped(crew, d, heard) && SilentFrom(opts, crew, ops, d)
    requires InTime(ops) && opts.gracePeriodMs >= 0 && opts.heartbeatTimeoutMs >= 0
    requires forall k :: 0 <= k < |ops| ==> heard <= ops[k].now
    requires a < b < |ops| && ops[a].CheckOp? && ops[b].CheckOp? && n <= |ops|
    requires ops[a].now > heard + opts.heartbeatTimeoutMs && ops[b].now > ops[a].now + opts.gracePeriodMs
    ensures Reached(After(opts, crew, ops[..n]), d, heard, if n == 0 then heard else ops[n - 1].now, ops[a].now, n > a, n > b)
  {
    hide Apply, Indexed, Fading, Lost, Gone, Stamped, Silent, After, SilentFrom;
    if n == 0 {
      AfterNothing(opts, crew, ops);
    } else {
      hide Reached;
      Stages(opts, crew, ops, d, heard, a, b, n - 1);
      AfterStep(opts, crew, ops, d, n);
      var at := if n == 1 then heard else ops[n - 2].now;
      StageStep(opts, After(opts, crew, ops[..n - 1]), ops[n - 1], d, heard, at, ops[a].now, n - 1 > a, n - 1 > b);
      StageOf(After(opts, crew, ops[..n]), d, heard, ops[n - 1].now, ops[a].now, n - 1 > a, n - 1 > b, n > a, n > b);
    }
  }

  lemma AfterNothing(opts: Options, crew: Crew, ops: seq<Op>)
    requires Indexed(crew)
    ensures After(opts, crew, ops[..0]) == crew
  {
  }

  lemma AfterStep(opts: Options, crew: Crew, ops: seq<Op>, d: DaemonId, n: nat)
    requires Indexed(crew) && SilentFrom(opts, crew, ops, d) && 0 < n <= |ops|
    ensures Indexed(After(opts, crew, ops[..n - 1])) && Silent(After(opts, crew, ops[..n - 1]), ops[n - 1], d)
    ensures WellFormed(After(opts, crew, ops[..n - 1]))
    ensures After(opts, crew, ops[..n]) == Apply(opts, After(opts, crew, ops[..n - 1]), ops[n - 1]).crew
  {
    hide Silent, Apply;
    assert ops[..n][..n - 1] == ops[..n - 1];
  }

  /** A stage that held with some flags holds with others, when what they add is known. */
  lemma StageOf(crew: Crew, d: DaemonId, heard: int, now: int, lostBy: int, lost: bool, gone: bool, lost2: bool, gone2: bool)
    requires Reached(crew, d, heard, now, lostBy, lost, gone)
    requires lost2 && !lost ==> Lost(crew, d, heard, lostBy)
    requires gone2 && !gone ==> Gone(crew, d, heard)
    ensures Reached(crew, d, heard, now, lostBy, lost2, gone2)
  {
    hide Lost, Gone, Stamped;
  }

  /** A check runs within `delta` after a moment. */
  predicate CheckedWithin(ops: seq<Op>, moment: int, delta: int) {
    exists k :: 0 <= k < |ops| && ops[k].CheckOp? && moment < ops[k].now <= moment + delta
  }

  /** Checks run at least every `delta` between `from` and `to`. */
  ghost predicate ChecksEvery(ops: seq<Op>, delta: int, from: int, to: int) {
    forall x: int :: from <= x <= to - delta ==> CheckedWithin(ops, x, delta)
  }

  /** From any crew where `d` has faded so far: once checks ran often enough, it owns nothing. */
  lemma FadedDaemonOwnsNothing(opts: Options, crew: Crew, ops: seq<Op>, d: DaemonId, heard: int, delta: int, p: ItemId)
    requires Indexed(crew) && Fading(crew, d, heard) && Stamped(crew, d, heard) && SilentFrom(opts, crew, ops, d)
    requires InTime(ops) && opts.gracePeriodMs >= 0 && opts.heartbeatTimeoutMs >= 0 && delta >= 0
    requires forall k :: 0 <= k < |ops| ==> heard <= ops[k].now
    requires ChecksEvery(ops, delta, heard, heard + opts.heartbeatTimeoutMs + opts.gracePeriodMs + 2 * delta)
    ensures !Owns(After(opts, crew, ops), d, p)
  {
    hide After, Indexed, SilentFrom, Stamped;
    var first := heard + opts.heartbeatTimeoutMs;
    assert CheckedWithin(ops, first, delta);
    var a :| 0 <= a < |ops| && ops[a].CheckOp? && first < ops[a].now <= first + delta;
    var second := ops[a].now + opts.gracePeriodMs;
    assert CheckedWithin(ops, second, delta);
    var b :| 0 <= b < |ops| && ops[b].CheckOp? && second < ops[b].now <= second + delta;
    Stages(opts, crew, ops, d, heard, a, b, |ops|);
    assert ops[..|ops|] == ops;
  }

  // ---- The same over whole runs -----------------------------------------------------------

  /** A known daemon was last heard of no later than `at`, and its record is in order. */
  ghost predicate Heard(crew: Crew, d: DaemonId, at: int) {
    d in crew.daemons ==> Fading(crew, d, at) && Stamped(crew, d, at)
  }

  lemma HeardLater(crew: Crew, d: DaemonId, at: int, later: int)
    requires Heard(crew, d, at) && at <= later
    ensures Heard(crew, d, later)
  {
  }

  /** No step but its own connect makes a daemon known. */
  lemma KnownOnlyByConnect(opts: Options, crew: Crew, op: Op, d: DaemonId)
    requires Indexed(crew) && d !in crew.daemons && !(op.ConnectOp? && op.daemon == d)
    ensures d !in Apply(opts, crew, op).crew.daemons
  {
    hide NoDuplicates, CheckAll, MergeAll, Best, Resumed, Released, Reclaimed, Remove, ReconcileEvents;
    match op {
      case SyncOp(e, items, now) =>
        SyncKeepsDaemons(crew, e, items, now);
        MergeWellFormed(crew, e, items, now);
      case _ =>
    }
  }

  lemma ConnectIsHeard(opts: Options, crew: Crew, op: Op, d: DaemonId)
    requires Indexed(crew) && op.ConnectOp? && op.daemon == d
    ensures Heard(Apply(opts, crew, op).crew, d, op.now)
  {
    hide Resumed, Released, Reclaimed;
  }

  lemma HeartbeatIsHeard(opts: Options, crew: Crew, op: Op, d: DaemonId)
    requires Indexed(crew) && op.HeartbeatOp? && op.daemon == d && Heard(crew, d, op.now)
    ensures Heard(Apply(opts, crew, op).crew, d, op.now)
  {
    hide NoDuplicates;
    var next := Apply(opts, crew, op).crew;
    assert forall p :: Owns(next, d, p) ==> Owns(crew, d, p);
  }

  lemma HeardStep(opts: Options, crew: Crew, op: Op, d: DaemonId, at: int)
    requires Indexed(crew) && Heard(crew, d, at) && at <= op.now && opts.gracePeriodMs >= 0
    requires !op.RestartOp? && ClaimsLive(crew, op, d)
    ensures Heard(Apply(opts, crew, op).crew, d, op.now)
  {
    hide Apply, WellFormed, Owns;
    HeardLater(crew, d, at, op.now);
    if op.ConnectOp? && op.daemon == d {
      ConnectIsHeard(opts, crew, op, d);
    } else if op.HeartbeatOp? && op.daemon == d {
      HeartbeatIsHeard(opts, crew, op, d);
    } else if d in crew.daemons {
      StageStays(opts, crew, op, d, op.now, op.now);
      StampStep(opts, crew, op, d);
    } else {
      KnownOnlyByConnect(opts, crew, op, d);
    }
  }

  /** The broker is never restarted. */
  predicate Unbroken(ops: seq<Op>) {
    forall k :: 0 <= k < |ops| ==> !ops[k].RestartOp?
  }

  /** Along the run, `d` claims through a live socket only. */
  ghost predicate OnlyLiveClaims(opts: Options, ops: seq<Op>, d: DaemonId) {
    forall k :: 0 <= k < |ops| ==> ClaimsLive(RunOps(opts, ops[..k]).crew, ops[k], d)
  }

  lemma RunStep(opts: Options, ops: seq<Op>)
    requires ops != []
    ensures var before := RunOps(opts, ops[..|ops| - 1]).crew;
      WellFormed(before) && RunOps(opts, ops).crew == Apply(opts, before, ops[|ops| - 1]).crew
  {
    hide Apply, WellFormed;
  }

  lemma {:induction false} HeardInRuns(opts: Options, ops: seq<Op>, d: DaemonId, at: int)
    requires Unbroken(ops) && InTime(ops) && OnlyLiveClaims(opts, ops, d) && opts.gracePeriodMs >= 0
    requires forall k :: 0 <= k < |ops| ==> ops[k].now <= at
    ensures Heard(RunOps(opts, ops).crew, d, at)
  {
    hide Apply, WellFormed, RunOps, Heard, ClaimsLive, Indexed;
    if ops == [] {
      NobodyHeard(opts, d, at);
    } else {
      var last := |ops| - 1;
      var before := ops[..last];
      assert forall k :: 0 <= k < last ==> before[..k] == ops[..k] && before[k] == ops[k];
      HeardInRuns(opts, before, d, ops[last].now);
      RunStep(opts, ops);
      HeardStep(opts, RunOps(opts, before).crew, ops[last], d, ops[last].now);
      HeardLater(RunOps(opts, ops).crew, d, ops[last].now, at);
    }
  }

  lemma NobodyHeard(opts: Options, d: DaemonId, at: int)
    ensures Heard(RunOps(opts, []).crew, d, at)
  {
  }

  /** A run goes on from where an earlier one stopped. */
  lemma {:induction false} RunGoesOn(opts: Options, past: seq<Op>, ops: seq<Op>)
    ensures After(opts, RunOps(opts, past).crew, ops) == RunOps(opts, past + ops).crew
  {
    hide Apply, Indexed;
    if ops == [] {
      assert past + ops == past;
    } else {
      var last := |ops| - 1;
      RunGoesOn(opts, past, ops[..last]);
      assert (past + ops)[..|past + ops| - 1] == past + ops[..last];
      RunStep(opts, past + ops);
      AfterLast(opts, RunOps(opts, past).crew, ops);
    }
  }

  lemma AfterLast(opts: Options, crew: Crew, ops: seq<Op>)
    requires Indexed(crew) && ops != []
    ensures var before := After(opts, crew, ops[..|ops| - 1]);
      WellFormed(before) && After(opts, crew, ops) == Apply(opts, before, ops[|ops| - 1]).crew
  {
    hide Apply, WellFormed;
  }

  lemma {:induction false} StaysUnknown(opts: Options, crew: Crew, ops: seq<Op>, d: DaemonId)
    requires Indexed(crew) && d !in crew.daemons && forall k :: 0 <= k < |ops| ==> !(ops[k].ConnectOp? && ops[k].daemon == d)
    ensures d !in After(opts, crew, ops).daemons
  {
    hide Apply, Indexed, WellFormed;
    if ops != [] {
      StaysUnknown(opts, crew, ops[..|ops| - 1], d);
      AfterLast(opts, crew, ops);
      KnownOnlyByConnect(opts, After(opts, crew, ops[..|ops| - 1]), ops[|ops| - 1], d);
    }
  }

  lemma StrangersOwnNothing(crew: Crew, d: DaemonId, p: ItemId)
    requires Indexed(crew) && d !in crew.daemons
    ensures !Owns(crew, d, p)
  {
  }

  lemma PastIsInOrder(opts: Options, past: seq<Op>, ops: seq<Op>, d: DaemonId)
    requires Unbroken(past + ops) && InTime(past + ops) && OnlyLiveClaims(opts, past + ops, d)
    ensures Unbroken(past) && InTime(past) && OnlyLiveClaims(opts, past, d) && InTime(ops)
  {
    hide RunOps, ClaimsLive;
    var all := past + ops;
    assert forall k :: 0 <= k < |past| ==> all[..k] == past[..k] && all[k] == past[k];
    assert forall k :: 0 <= k < |ops| ==> all[|past| + k] == ops[k];
  }

  lemma SilentAlong(opts: Options, past: seq<Op>, ops: seq<Op>, d: DaemonId)
    requires Unbroken(past + ops) && OnlyLiveClaims(opts, past + ops, d)
    requires forall k :: 0 <= k < |ops| ==> !(ops[k].ConnectOp? && ops[k].daemon == d) && !(ops[k].HeartbeatOp? && ops[k].daemon == d)
    ensures SilentFrom(opts, RunOps(opts, past).crew, ops, d)
  {
    hide RunOps, After, ClaimsLive, Indexed;
    forall k | 0 <= k < |ops| ensures Silent(After(opts, RunOps(opts, past).crew, ops[..k]), ops[k], d) {
      RunGoesOn(opts, past, ops[..k]);
      assert (past + ops)[..|past| + k] == past + ops[..k] && (past + ops)[|past| + k] == ops[k];
    }
  }

  /**
   * Main result: in every run of a broker that is not restarted and where the daemon claims through
   * a live socket only, a daemon that is silent from `heard` on owns nothing once checks ran at
   * least every `delta` up to heard + timeout + grace + 2 delta.
   */
  lemma SilentDaemonOwnsNothing(opts: Options, past: seq<Op>, ops: seq<Op>, d: DaemonId, heard: int, delta: int, p: ItemId)
    requires Unbroken(past + ops) && InTime(past + ops) && OnlyLiveClaims(opts, past + ops, d)
    requires opts.gracePeriodMs >= 0 && opts.heartbeatTimeoutMs >= 0 && delta >= 0
    requires forall k :: 0 <= k < |past| ==> past[k].now <= heard
    requires forall k :: 0 <= k < |ops| ==> heard <= ops[k].now
    requires forall k :: 0 <= k < |ops| ==> !(ops[k].ConnectOp? && ops[k].daemon == d) && !(ops[k].HeartbeatOp? && ops[k].daemon == d)
    requires ChecksEvery(ops, delta, heard, heard + opts.heartbeatTimeoutMs + opts.gracePeriodMs + 2 * delta)
    ensures !Owns(RunOps(opts, past + ops).crew, d, p)
  {
    hide RunOps, After, Indexed, Fading, Stamped, ChecksEvery, SilentFrom, Owns, ClaimsLive, OnlyLiveClaims, Unbroken, InTime;
    var all, crew := past + ops, RunOps(opts, past).crew;
    PastIsInOrder(opts, past, ops, d);
    HeardInRuns(opts, past, d, heard);
    RunGoesOn(opts, past, ops);
    SilentAlong(opts, past, ops, d);
    if d in crew.daemons {
      FadedDaemonOwnsNothing(opts, crew, ops, d, heard, delta, p);
    } else {
      StaysUnknown(opts, crew, ops, d);
      StrangersOwnNothing(RunOps(opts, all).crew, d, p);
    }
  }

  // ---- A claim of a released daemon --------------------------------------------------------

  /** The grace period of a daemon without a socket is over. */
  ghost predicate Shelved(crew: Crew, d: DaemonId) {
    d in crew.daemons && crew.daemons[d].released && !crew.daemons[d].live
  }

  /** The daemon owns the item, or the item is finished. */
  predicate Held(crew: Crew, d: DaemonId, p: ItemId) {
    p in crew.items && (crew.items[p].claimedBy == By(d) || crew.items[p].completedBy.By?)
  }

  lemma ReleasedStep(opts: Options, crew: Crew, op: Op, d: DaemonId)
    requires Indexed(crew) && (d in crew.daemons && crew.daemons[d].released ==> !crew.daemons[d].live)
    ensures var next := Apply(opts, crew, op).crew; d in next.daemons && next.daemons[d].released ==> !next.daemons[d].live
  {
    hide NoDuplicates, CheckAll, MergeAll, Best, Resumed, Released, Reclaimed, Remove, ReconcileEvents;
    match op {
      case SyncOp(e, items, now) =>
        SyncKeepsDaemons(crew, e, items, now);
        MergeWellFormed(crew, e, items, now);
      case CheckOp(now) =>
        if d in crew.daemons {
          CheckExactly(crew, d, opts, now);
        } else {
          assert Check(crew, opts, now).crew.daemons.Keys == crew.daemons.Keys;
        }
      case _ =>
    }
  }

  /** In every run, restarts included, a released daemon has no socket. */
  lemma {:induction false} ReleasedOffline(opts: Options, ops: seq<Op>, d: DaemonId)
    ensures var crew := RunOps(opts, ops).crew; d in crew.daemons && crew.daemons[d].released ==> !crew.daemons[d].live
  {
    hide Apply, WellFormed;
    if ops != [] {
      ReleasedOffline(opts, ops[..|ops| - 1], d);
      RunStep(opts, ops);
      ReleasedStep(opts, RunOps(opts, ops[..|ops| - 1]).crew, ops[|ops| - 1], d);
    }
  }

  lemma ShelvedStep(opts: Options, crew: Crew, op: Op, d: DaemonId)
    requires Indexed(crew) && Shelved(crew, d) && !(op.ConnectOp? && op.daemon == d)
    ensures Shelved(Apply(opts, crew, op).crew, d)
  {
    hide NoDuplicates, CheckAll, MergeAll, Best, Resumed, Released, Reclaimed, Remove, ReconcileEvents;
    match op {
      case SyncOp(e, items, now) =>
        SyncKeepsDaemons(crew, e, items, now);
        MergeWellFormed(crew, e, items, now);
      case CheckOp(now) => CheckExactly(crew, d, opts, now);
      case _ =>
    }
  }

  lemma {:induction false} MergeHolds(crew: Crew, e: DaemonId, items: seq<SyncItem>, now: int, d: DaemonId, p: ItemId)
    requires Held(crew, d, p)
    ensures Held(MergeAll(crew, e, items, now).crew, d, p)
  {
    if items != [] {
      MergeHolds(crew, e, items[..|items| - 1], now, d, p);
    }
  }

  lemma {:induction false} CheckHolds(crew: Crew, order: seq<DaemonId>, opts: Options, now: int, p: ItemId)
    requires (forall e :: e in order ==> e in crew.daemons) && p in crew.items
    ensures CheckAll(crew, order, opts, now).crew.items[p].completedBy == crew.items[p].completedBy
  {
    if order != [] {
      CheckHolds(crew, order[..|order| - 1], opts, now, p);
    }
  }

  /** Nothing but its completion takes the item from a released daemon before it connects. */
  lemma HeldStep(opts: Options, crew: Crew, op: Op, d: DaemonId, p: ItemId)
    requires Indexed(crew) && Shelved(crew, d) && Held(crew, d, p) && !(op.ConnectOp? && op.daemon == d)
    ensures Held(Apply(opts, crew, op).crew, d, p)
    ensures op.CheckOp? && Owns(crew, d, p) ==> Owns(Apply(opts, crew, op).crew, d, p)
  {
    hide NoDuplicates, CheckAll, MergeAll, Resumed, Released, Reclaimed, Remove, ReconcileEvents;
    match op {
      case SyncOp(e, items, now) =>
        MergeWellFormed(crew, e, items, now);
        MergeHolds(crew, e, items, now, d, p);
      case CheckOp(now) =>
        CheckExactly(crew, d, opts, now);
        CheckHolds(crew, crew.daemonOrder, opts, now, p);
        assert Owns(crew, d, p) ==> Owns(Check(crew, opts, now).crew, d, p);
      case _ =>
    }
  }

  /**
   * Main result: why `SilentDaemonOwnsNothing` asks for live claims. A released daemon that owns an
   * item again, because it claimed it without a socket, keeps it through every later step of any
   * run, however late the checks come, until the item is completed or the daemon connects; checks
   * alone never take it.
   */
  lemma {:induction false} ReleasedKeepsClaim(opts: Options, past: seq<Op>, later: seq<Op>, d: DaemonId, p: ItemId)
    requires var crew := RunOps(opts, past).crew; d in crew.daemons && crew.daemons[d].released && Held(crew, d, p)
    requires forall k :: 0 <= k < |later| ==> !(later[k].ConnectOp? && later[k].daemon == d)
    ensures var crew := RunOps(opts, past + later).crew; Shelved(crew, d) && Held(crew, d, p)
    ensures Owns(RunOps(opts, past).crew, d, p) && (forall k :: 0 <= k < |later| ==> later[k].CheckOp?) ==>
      Owns(RunOps(opts, past + later).crew, d, p)
  {
    hide Apply, RunOps, WellFormed, Held, Owns;
    ReleasedOffline(opts, past, d);
    if later == [] {
      assert past + later == past;
    } else {
      var last := |later| - 1;
      ReleasedKeepsClaim(opts, past, later[..last], d, p);
      var all := past + later;
      assert all[..|all| - 1] == past + later[..last] && all[|all| - 1] == later[last];
      RunStep(opts, all);
      var before := RunOps(opts, past + later[..last]).crew;
      ShelvedStep(opts, before, later[last], d);
      HeldStep(opts, before, later[last], d, p);
    }
  }

  // ---- A daemon that is heard of ----------------------------------------------------------

  /** When the daemon was last heard of: its last connect or heartbeat, or `heard`. */
  function LastBeat(heard: int, ops: seq<Op>, d: DaemonId): int {
    if ops == [] then heard
    else
      var last := ops[|ops| - 1];
      if (last.ConnectOp? || last.HeartbeatOp?) && last.daemon == d then last.now else LastBeat(heard, ops[..|ops| - 1], d)
  }

  /** No check comes later than the timeout after the daemon was last heard of, and its socket is not lost. */
  predicate Beats(opts: Options, heard: int, ops: seq<Op>, d: DaemonId) {
    forall k :: 0 <= k < |ops| ==>
      && !ops[k].RestartOp? && !(ops[k].DisconnectOp? && ops[k].daemon == d)
      && (ops[k].CheckOp? ==> ops[k].now - LastBeat(heard, ops[..k], d) <= opts.heartbeatTimeoutMs)
  }

  /** The daemon has its socket and was last heard of at `beat`. */
  ghost predicate Linked(crew: Crew, d: DaemonId, beat: int) {
    d in crew.daemons && crew.daemons[d].live && crew.daemons[d].disconnectedAt.Never? && crew.daemons[d].lastHeartbeat == beat
  }

  lemma LinkedStep(opts: Options, crew: Crew, op: Op, d: DaemonId, beat: int, p: ItemId)
    requires Indexed(crew) && Linked(crew, d, beat) && !op.RestartOp? && !(op.DisconnectOp? && op.daemon == d)
    requires op.CheckOp? ==> op.now - beat <= opts.heartbeatTimeoutMs
    ensures var next := Apply(opts, crew, op).crew;
      && Linked(next, d, if (op.ConnectOp? || op.HeartbeatOp?) && op.daemon == d then op.now else beat)
      && (Held(crew, d, p) ==> Held(next, d, p))
    ensures Abandoned(d, p) !in Apply(opts, crew, op).events
  {
    hide NoDuplicates, CheckAll, MergeAll, Resumed, Released, Reclaimed, Remove, ReconcileEvents;
    if Abandoned(d, p) in Apply(opts, crew, op).events {
      OnlyChecksAbandon(opts, crew, op, d, p);
    }
    match op {
      case SyncOp(e, items, now) =>
        SyncKeepsDaemons(crew, e, items, now);
        MergeWellFormed(crew, e, items, now);
        if Held(crew, d, p) {
          MergeHolds(crew, e, items, now, d, p);
        }
      case CheckOp(now) =>
        CheckExactly(crew, d, opts, now);
        if Held(crew, d, p) {
          CheckHolds(crew, crew.daemonOrder, opts, now, p);
          assert Owns(crew, d, p) ==> Owns(Check(crew, opts, now).crew, d, p);
        }
      case _ =>
    }
  }

  /**
   * Main result: a daemon that has its socket and is heard of in time never loses work: over any
   * operations it stays linked, and what it owns it keeps until it is completed.
   */
  lemma {:induction false} BeatingKeepsItems(opts: Options, crew: Crew, ops: seq<Op>, d: DaemonId, heard: int, p: ItemId)
    requires Indexed(crew) && Linked(crew, d, heard) && Beats(opts, heard, ops, d) && Held(crew, d, p)
    ensures Linked(After(opts, crew, ops), d, LastBeat(heard, ops, d)) && Held(After(opts, crew, ops), d, p)
  {
    hide Apply, Indexed, WellFormed, Linked, Held;
    if ops != [] {
      var last := |ops| - 1;
      BeatsBefore(opts, heard, ops, d);
      BeatingKeepsItems(opts, crew, ops[..last], d, heard, p);
      AfterLast(opts, crew, ops);
      LinkedStep(opts, After(opts, crew, ops[..last]), ops[last], d, LastBeat(heard, ops[..last], d), p);
    }
  }

  lemma BeatsBefore(opts: Options, heard: int, ops: seq<Op>, d: DaemonId)
    requires ops != [] && Beats(opts, heard, ops, d)
    ensures Beats(opts, heard, ops[..|ops| - 1], d)
  {
    hide LastBeat;
    var earlier := ops[..|ops| - 1];
    assert forall k :: 0 <= k < |earlier| ==> earlier[..k] == ops[..k] && earlier[k] == ops[k];
  }

  // ---- After a restart --------------------------------------------------------------------

  /** A known daemon with neither a socket nor a stamp. */
  ghost predicate Orphaned(crew: Crew, d: DaemonId) {
    d in crew.daemons && !crew.daemons[d].live && crew.daemons[d].disconnectedAt.Never?
  }

  lemma OrphanedStep(opts: Options, crew: Crew, op: Op, d: DaemonId)
    requires Indexed(crew) && Orphaned(crew, d) && !(op.ConnectOp? && op.daemon == d)
    ensures Orphaned(Apply(opts, crew, op).crew, d)
  {
    hide NoDuplicates, CheckAll, MergeAll, Best, Resumed, Released, Reclaimed, Remove, ReconcileEvents;
    match op {
      case SyncOp(e, items, now) =>
        SyncKeepsDaemons(crew, e, items, now);
        MergeWellFormed(crew, e, items, now);
      case CheckOp(now) => CheckExactly(crew, d, opts, now);
      case _ =>
    }
  }

  /** A check finds nothing to expire about such a daemon. */
  lemma OrphansStay(opts: Options, crew: Crew, op: Op, d: DaemonId, p: ItemId)
    requires Indexed(crew) && Orphaned(crew, d)
    ensures Abandoned(d, p) !in Apply(opts, crew, op).events
    ensures op.CheckOp? && Owns(crew, d, p) ==> Owns(Apply(opts, crew, op).crew, d, p)
  {
    hide Apply, WellFormed;
    if Abandoned(d, p) in Apply(opts, crew, op).events {
      OnlyChecksAbandon(opts, crew, op, d, p);
    }
    if op.CheckOp? {
      CheckApplied(opts, crew, op.now);
      CheckExactly(crew, d, opts, op.now);
    }
  }

  /** The run has restarted while `d` was linked, and `d` did not connect since. */
  ghost predicate LeftBehind(opts: Options, past: seq<Op>, restart: Op, later: seq<Op>, d: DaemonId) {
    && restart.RestartOp? && LinkOf(opts, past, d).LinkedAt?
    && forall k :: 0 <= k < |later| ==> !(later[k].ConnectOp? && later[k].daemon == d)
  }

  lemma RestartOrphans(opts: Options, past: seq<Op>, restart: Op, d: DaemonId)
    requires restart.RestartOp? && LinkOf(opts, past, d).LinkedAt?
    ensures Orphaned(RunOps(opts, past + [restart]).crew, d)
  {
    hide LinkOf, WellFormed;
    LinkInvariant(opts, past, d);
    assert (past + [restart])[..|past|] == past;
  }

  lemma {:induction false} OrphanedOn(opts: Options, past: seq<Op>, restart: Op, later: seq<Op>, d: DaemonId)
    requires LeftBehind(opts, past, restart, later, d)
    ensures Orphaned(RunOps(opts, past + [restart] + later).crew, d)
  {
    hide Apply, RunOps, LinkOf, WellFormed, Orphaned;
    if later == [] {
      RestartOrphans(opts, past, restart, d);
      assert past + [restart] + later == past + [restart];
    } else {
      var last := |later| - 1;
      OrphanedOn(opts, past, restart, later[..last], d);
      var all := past + [restart] + later;
      assert all[..|all| - 1] == past + [restart] + later[..last] && all[|all| - 1] == later[last];
      RunStep(opts, all);
      OrphanedStep(opts, RunOps(opts, all[..|all| - 1]).crew, later[last], d);
    }
  }

  /**
   * Main result: a daemon that was linked when the broker restarted is never released: until it
   * connects again, whatever runs and however late the checks come, no step abandons an item of it
   * and no check takes one from it.
   */
  lemma RestartNeverExpires(opts: Options, past: seq<Op>, restart: Op, later: seq<Op>, d: DaemonId, op: Op, p: ItemId)
    requires LeftBehind(opts, past, restart, later, d)
    ensures var crew := RunOps(opts, past + [restart] + later).crew;
      && WellFormed(crew)
      && Abandoned(d, p) !in Apply(opts, crew, op).events
      && (op.CheckOp? && Owns(crew, d, p) ==> Owns(Apply(opts, crew, op).crew, d, p))
  {
    hide Apply, RunOps, LinkOf, WellFormed, Orphaned;
    OrphanedOn(opts, past, restart, later, d);
    OrphansStay(opts, RunOps(opts, past + [restart] + later).crew, op, d, p);
  }

  function Joined(): Crew {
    EmptyCrew().(daemons := map[1 := Daemon(1, "", "", true, 0, Never, [], false)], daemonOrder := [1])
  }

  function WithItem(): Crew {
    Joined().(items := map[7 := Entry(7, 0, [], "", 0, 1, NoOne, NoOne)], order := [7])
  }

  lemma SyncsOne(item: SyncItem)
    requires item == SyncItem(7, 0, [], "")
    ensures WellFormed(Joined()) && Sync(Joined(), 1, [item], 0).crew == WithItem()
  {
    var crew := Joined();
    assert [item][..0] == [];
    assert MergeAll(crew, 1, [], 0) == Effect(crew, []);
    assert MergeAll(crew, 1, [item], 0).crew == WithItem();
    assert Reported([item], 7) by {
      assert [item][0].id == 7;
    }
    assert (map p | p in WithItem().items :: Reconciled(WithItem().items[p], 1, [item])) == WithItem().items;
  }

  lemma ClaimsOne()
    ensures WellFormed(WithItem()) && Owns(Claim(WithItem(), 1).crew, 1, 7)
  {
    var crew := WithItem();
    assert crew.order[..0] == [];
    assert IsAvailable(crew, crew.items[7]);
    assert Best(crew, "", [7]) == Item(7);
  }

  /** Connect, sync, claim, restart: a run that strands a daemon with an item. */
  lemma RestartStrands(opts: Options)
    ensures var past := [ConnectOp(1, "", "", 0), SyncOp(1, [SyncItem(7, 0, [], "")], 0), ClaimOp(1, 0)];
      LeftBehind(opts, past, RestartOp(0), [], 1) && Owns(RunOps(opts, past + [RestartOp(0)]).crew, 1, 7)
  {
    hide WellFormed, Apply, Owns;
    var connect, sync, claim, restart := ConnectOp(1, "", "", 0), SyncOp(1, [SyncItem(7, 0, [], "")], 0), ClaimOp(1, 0), RestartOp(0);
    var past := [connect, sync, claim];
    var all := past + [restart];
    assert all[..3] == past && past[..2] == [connect, sync] && [connect, sync][..1] == [connect] && [connect][..0] == [];
    FirstSteps(opts, connect, sync, claim);
    RunStep(opts, [connect]);
    RunStep(opts, [connect, sync]);
    RunStep(opts, past);
    RunStep(opts, all);
    RestartKeeps(opts, RunOps(opts, past).crew, 1, 7);
    LinkedFirst(opts, connect, sync, claim);
  }

  lemma FirstSteps(opts: Options, connect: Op, sync: Op, claim: Op)
    requires connect == ConnectOp(1, "", "", 0) && sync == SyncOp(1, [SyncItem(7, 0, [], "")], 0) && claim == ClaimOp(1, 0)
    ensures WellFormed(EmptyCrew()) && Apply(opts, EmptyCrew(), connect).crew == Joined()
    ensures WellFormed(Joined()) && Apply(opts, Joined(), sync).crew == WithItem()
    ensures WellFormed(WithItem()) && Owns(Apply(opts, WithItem(), claim).crew, 1, 7)
    ensures RunOps(opts, []).crew == EmptyCrew()
  {
    hide Sync, Claim, Owns, WellFormed, WithItem;
    NobodyYet(opts);
    SyncsOne(SyncItem(7, 0, [], ""));
    ClaimsOne();
  }

  lemma NobodyYet(opts: Options)
    ensures WellFormed(EmptyCrew()) && RunOps(opts, []).crew == EmptyCrew()
    ensures Connect(EmptyCrew(), 1, "", "", 0).crew == Joined()
  {
  }

  // ---- A run with a late claim ------------------------------------------------------------

  /** The crew once the daemon lost its socket, and once its grace period is over as well. */
  function Offline(released: bool): Crew {
    var daemon := WithItem().daemons[1].(live := false, disconnectedAt := At(0), released := released);
    WithItem().(daemons := map[1 := daemon])
  }

  lemma Releases(opts: Options, t: int)
    requires t > opts.gracePeriodMs
    ensures WellFormed(Offline(false)) && Check(Offline(false), opts, t).crew == Offline(true)
  {
    var crew := Offline(false);
    assert [1][..0] == [];
    assert CheckAll(crew, [], opts, t) == Effect(crew, []);
    assert CheckAll(crew, [1], opts, t).crew == CheckDaemon(crew, 1, opts, t).crew;
    assert (map p | p in crew.items :: Freed(crew.items[p], 1, [])) == crew.items;
    assert crew.daemons[1 := crew.daemons[1].(released := true)] == Offline(true).daemons;
  }

  lemma ClaimsLate()
    ensures WellFormed(Offline(true))
    ensures var crew := Claim(Offline(true), 1).crew; Owns(crew, 1, 7) && 1 in crew.daemons && crew.daemons[1].released
  {
    var crew := Offline(true);
    assert crew.order[..0] == [];
    assert IsAvailable(crew, crew.items[7]);
    assert Best(crew, "", [7]) == Item(7);
  }

  /**
   * Connect, sync, disconnect, a check after the grace period, and a claim without a socket: the
   * released daemon owns the item, and no check takes it away again.
   */
  lemma LateClaimIsKept(opts: Options, t: int, checks: seq<Op>)
    requires t > opts.gracePeriodMs && forall k :: 0 <= k < |checks| ==> checks[k].CheckOp?
    ensures var ops := [ConnectOp(1, "", "", 0), SyncOp(1, [SyncItem(7, 0, [], "")], 0), DisconnectOp(1, 0), CheckOp(t), ClaimOp(1, t)];
      var crew := RunOps(opts, ops + checks).crew; Shelved(crew, 1) && Owns(crew, 1, 7)
  {
    hide WellFormed, Apply, Owns, Held;
    var e0, e1, e2, e3, e4 := ConnectOp(1, "", "", 0), SyncOp(1, [SyncItem(7, 0, [], "")], 0), DisconnectOp(1, 0), CheckOp(t), ClaimOp(1, t);
    var ops := [e0, e1, e2, e3, e4];
    assert ops[..4] == [e0, e1, e2, e3] && ops[..4][..3] == [e0, e1, e2] && [e0, e1, e2][..2] == [e0, e1];
    assert [e0, e1][..1] == [e0] && [e0][..0] == [];
    FirstSteps(opts, e0, e1, ClaimOp(1, 0));
    LaterSteps(opts, e2, e3, e4, t);
    RunStep(opts, [e0]);
    RunStep(opts, [e0, e1]);
    RunStep(opts, [e0, e1, e2]);
    RunStep(opts, [e0, e1, e2, e3]);
    RunStep(opts, ops);
    ReleasedKeepsClaim(opts, ops, checks, 1, 7);
  }

  lemma LaterSteps(opts: Options, lost: Op, check: Op, claim: Op, t: int)
    requires t > opts.gracePeriodMs && lost == DisconnectOp(1, 0) && check == CheckOp(t) && claim == ClaimOp(1, t)
    ensures WellFormed(WithItem()) && Apply(opts, WithItem(), lost).crew == Offline(false)
    ensures WellFormed(Offline(false)) && Apply(opts, Offline(false), check).crew == Offline(true)
    ensures WellFormed(Offline(true))
    ensures var crew := Apply(opts, Offline(true), claim).crew;
      Owns(crew, 1, 7) && Held(crew, 1, 7) && 1 in crew.daemons && crew.daemons[1].released
  {
    hide Check, Claim, Disconnect, Owns, WellFormed, Offline, WithItem;
    Loses();
    Releases(opts, t);
    ClaimsLate();
    OwnedIsHeld(Claim(Offline(true), 1).crew, 1, 7);
  }

  lemma Loses()
    ensures WellFormed(WithItem()) && Disconnect(WithItem(), 1, 0).crew == Offline(false)
  {
    ClaimsOne();
    assert WithItem().daemons[1 := Offline(false).daemons[1]] == Offline(false).daemons;
  }

  lemma OwnedIsHeld(crew: Crew, d: DaemonId, p: ItemId)
    requires Owns(crew, d, p)
    ensures Held(crew, d, p)
  {
  }

  lemma RestartKeeps(opts: Options, crew: Crew, d: DaemonId, p: ItemId)
    requires WellFormed(crew)
    ensures Owns(Apply(opts, crew, RestartOp(0)).crew, d, p) <==> Owns(crew, d, p)
  {
  }

  lemma LinkedFirst(opts: Options, connect: Op, sync: Op, claim: Op)
    requires connect == ConnectOp(1, "", "", 0) && sync.SyncOp? && claim.ClaimOp?
    ensures LinkOf(opts, [connect, sync, claim], 1) == LinkedAt(0)
  {
    hide WellFormed, Apply, RunOps;
    var two := [connect, sync];
    assert [connect, sync, claim][..2] == two && two[..1] == [connect];
    NeverDisconnects(opts, RunOps(opts, two).crew, claim, 1);
    NeverDisconnects(opts, RunOps(opts, [connect]).crew, sync, 1);
    assert LinkOf(opts, [connect], 1) == LinkedAt(0);
    assert LinkOf(opts, two, 1) == LinkedAt(0);
  }

  lemma NeverDisconnects(opts: Options, crew: Crew, op: Op, d: DaemonId)
    requires Indexed(crew) && (op.SyncOp? || op.ClaimOp?)
    ensures WellFormed(crew) && Disconnected(d) !in Apply(opts, crew, op).events
  {
    hide NoDuplicates, MergeAll, ReconcileEvents;
    if op.SyncOp? {
      SyncKeepsDaemons(crew, op.daemon, op.items, op.now);
      MergeWellFormed(crew, op.daemon, op.items, op.now);
      var merged := MergeAll(crew, op.daemon, op.items, op.now);
      ReconcileOnly(merged.crew, merged.crew.order, op.daemon, op.items);
    }
  }

  /** Exactly the daemons with a socket or a stamp can expire: two checks, late enough, free them. */
  lemma ExpiresExactly(opts: Options, crew: Crew, d: DaemonId)
    requires Indexed(crew) && d in crew.daemons && !crew.daemons[d].released && opts.gracePeriodMs >= 0
    ensures crew.daemons[d].live || crew.daemons[d].disconnectedAt.At? <==>
      exists t, u :: t < u && Indexed(Check(crew, opts, t).crew) && Check(Check(crew, opts, t).crew, opts, u).crew.daemons[d].released
  {
    hide NoDuplicates, CheckAll;
    var daemon := crew.daemons[d];
    if daemon.live || daemon.disconnectedAt.At? {
      var t := if daemon.live then daemon.lastHeartbeat + Positive(opts.heartbeatTimeoutMs) + 1 else daemon.disconnectedAt.ms;
      var u := t + opts.gracePeriodMs + 1;
      TwoChecks(opts, crew, d, t, u);
      assert Check(Check(crew, opts, t).crew, opts, u).crew.daemons[d].released;
    } else {
      forall t, u | t < u && Indexed(Check(crew, opts, t).crew)
        ensures !Check(Check(crew, opts, t).crew, opts, u).crew.daemons[d].released
      {
        TwoChecks(opts, crew, d, t, u);
      }
    }
  }

  function Positive(x: int): nat {
    if x < 0 then 0 else x
  }

  lemma TwoChecks(opts: Options, crew: Crew, d: DaemonId, t: int, u: int)
    requires Indexed(crew) && d in crew.daemons
    ensures Indexed(Check(crew, opts, t).crew)
    ensures var once := Check(crew, opts, t).crew;
      d in once.daemons && d in Check(once, opts, u).crew.daemons
      && Check(once, opts, u).crew.daemons[d] == Checked(Checked(crew.daemons[d], opts, t), opts, u)
  {
    hide Checked;
    CheckAllFacts(crew, crew.daemonOrder, opts, t);
    CheckExactly(crew, d, opts, t);
    CheckExactly(Check(crew, opts, t).crew, d, opts, u);
  }
}
