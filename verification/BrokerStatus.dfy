/** The status update of a crew (core/broker-state.ts): its counts partition the work items. */
module BrokerStatus {
  import opened Broker
  import opened BrokerFacts

  datatype ItemState = Done | InProgress | Queued | Blocked

  /** resolveItemState. */
  function ResolveItemState(crew: Crew, e: Entry): ItemState {
    if e.completedBy.By? then Done
    else if e.claimedBy.By? then InProgress
    else if IsAvailable(crew, e) then Queued
    else Blocked
  }

  /** A tracked dependency of the item is not completed. */
  predicate WaitsFor(crew: Crew, e: Entry) {
    exists i :: 0 <= i < |e.dependencies| && e.dependencies[i] in crew.items && crew.items[e.dependencies[i]].completedBy == NoOne
  }

  /** The states tell apart what is done, what is taken, what can be taken, and what waits for a dependency. */
  lemma StatesMean(crew: Crew, e: Entry)
    ensures ResolveItemState(crew, e) == Done <==> e.completedBy != NoOne
    ensures ResolveItemState(crew, e) == InProgress <==> e.completedBy == NoOne && e.claimedBy != NoOne
    ensures ResolveItemState(crew, e) == Queued <==> e.completedBy == NoOne && e.claimedBy == NoOne && !WaitsFor(crew, e)
    ensures ResolveItemState(crew, e) == Blocked <==> e.completedBy == NoOne && e.claimedBy == NoOne && WaitsFor(crew, e)
  {
    if WaitsFor(crew, e) {
      var i :| 0 <= i < |e.dependencies| && e.dependencies[i] in crew.items && crew.items[e.dependencies[i]].completedBy == NoOne;
      assert !DependencyMet(crew, e.dependencies[i]);
    } else {
      assert forall i :: 0 <= i < |e.dependencies| ==> DependencyMet(crew, e.dependencies[i]);
    }
  }

  /** How many of the listed items resolve to a state. */
  function HowMany(crew: Crew, order: seq<ItemId>, state: ItemState): nat
    requires forall p :: p in order ==> p in crew.items
  {
    if order == [] then 0
    else
      var last := |order| - 1;
      HowMany(crew, order[..last], state) + (if ResolveItemState(crew, crew.items[order[last]]) == state then 1 else 0)
  }

  /** The claimed items with their owners, in order. */
  function Claims(crew: Crew, order: seq<ItemId>): seq<(ItemId, DaemonId)>
    requires forall p :: p in order ==> p in crew.items
  {
    if order == [] then []
    else
      var last := |order| - 1;
      var e := crew.items[order[last]];
      Claims(crew, order[..last]) + (if e.claimedBy.By? && e.completedBy.NoOne? then [(e.path, e.claimedBy.daemon)] else [])
  }

  lemma {:induction false} StatesPartition(crew: Crew, order: seq<ItemId>)
    requires forall p :: p in order ==> p in crew.items
    ensures HowMany(crew, order, Done) + HowMany(crew, order, InProgress) + HowMany(crew, order, Queued)
            + HowMany(crew, order, Blocked) == |order|
  {
    if order != [] {
      StatesPartition(crew, order[..|order| - 1]);
    }
  }

  lemma {:induction false} ClaimsMean(crew: Crew, order: seq<ItemId>, p: ItemId, d: DaemonId)
    requires Indexed(crew) && forall q :: q in order ==> q in crew.items
    ensures (p, d) in Claims(crew, order) <==> p in order && Owns(crew, d, p)
  {
    if order != [] {
      ClaimsMean(crew, order[..|order| - 1], p, d);
    }
  }

  datatype Status = Status(daemonCount: nat, availableCount: nat, claimedCount: nat, completedCount: nat, claimed: seq<(ItemId, DaemonId)>)

  function LiveCount(crew: Crew, order: seq<DaemonId>): nat
    requires forall d :: d in order ==> d in crew.daemons
  {
    if order == [] then 0
    else LiveCount(crew, order[..|order| - 1]) + (if crew.daemons[order[|order| - 1]].live then 1 else 0)
  }

  method CountLive(crew: Crew) returns (live: nat)
    requires WellFormed(crew)
    ensures live == LiveCount(crew, crew.daemonOrder)
  {
    live := 0;
    var k := 0;
    while k < |crew.daemonOrder|
      invariant 0 <= k <= |crew.daemonOrder| && live == LiveCount(crew, crew.daemonOrder[..k])
    {
      assert crew.daemonOrder[..k + 1][..k] == crew.daemonOrder[..k];
      if crew.daemons[crew.daemonOrder[k]].live {
        live := live + 1;
      }
      k := k + 1;
    }
    assert crew.daemonOrder[..|crew.daemonOrder|] == crew.daemonOrder;
  }

  /** The filters over the work items. */
  method CountItems(crew: Crew) returns (available: nat, inProgress: nat, completed: nat)
    requires Indexed(crew)
    ensures available == HowMany(crew, crew.order, Queued)
    ensures inProgress == HowMany(crew, crew.order, InProgress)
    ensures completed == HowMany(crew, crew.order, Done)
  {
    hide IsAvailable, NoDuplicates;
    available, inProgress, completed := 0, 0, 0;
    var i := 0;
    while i < |crew.order|
      invariant 0 <= i <= |crew.order|
      invariant available == HowMany(crew, crew.order[..i], Queued)
      invariant inProgress == HowMany(crew, crew.order[..i], InProgress)
      invariant completed == HowMany(crew, crew.order[..i], Done)
    {
      var e := crew.items[crew.order[i]];
      assert crew.order[..i + 1][..i] == crew.order[..i];
      if IsAvailable(crew, e) {
        AvailableIsOpen(crew, e);
        available := available + 1;
      }
      if e.claimedBy.By? {
        inProgress := inProgress + 1;
      }
      if e.completedBy.By? {
        completed := completed + 1;
      }
      i := i + 1;
    }
    assert crew.order[..|crew.order|] == crew.order;
  }

  method ListClaims(crew: Crew) returns (claimed: seq<(ItemId, DaemonId)>)
    requires Indexed(crew)
    ensures claimed == Claims(crew, crew.order)
    ensures forall p: ItemId, d: DaemonId :: (p, d) in claimed <==> Owns(crew, d, p)
  {
    claimed := [];
    var i := 0;
    while i < |crew.order|
      invariant 0 <= i <= |crew.order| && claimed == Claims(crew, crew.order[..i])
    {
      var e := crew.items[crew.order[i]];
      assert crew.order[..i + 1][..i] == crew.order[..i];
      if e.claimedBy.By? && e.completedBy.NoOne? {
        claimed := claimed + [(e.path, e.claimedBy.daemon)];
      }
      i := i + 1;
    }
    assert crew.order[..|crew.order|] == crew.order;
    forall p: ItemId, d: DaemonId ensures (p, d) in claimed <==> Owns(crew, d, p) {
      ClaimsMean(crew, crew.order, p, d);
    }
  }

  /**
   * buildCrewStatusUpdate: available, claimed, completed and blocked items partition the crew's
   * work, and the listed claims are exactly what the daemons own.
   */
  method BuildCrewStatusUpdate(crew: Crew) returns (status: Status)
    requires Indexed(crew)
    ensures status.daemonCount == LiveCount(crew, crew.daemonOrder)
    ensures status.availableCount == HowMany(crew, crew.order, Queued)
    ensures status.claimedCount == HowMany(crew, crew.order, InProgress)
    ensures status.completedCount == HowMany(crew, crew.order, Done)
    ensures status.availableCount + status.claimedCount + status.completedCount + HowMany(crew, crew.order, Blocked) == |crew.order|
    ensures forall p: ItemId, d: DaemonId :: (p, d) in status.claimed <==> Owns(crew, d, p)
  {
    hide NoDuplicates;
    var available, inProgress, completed := CountItems(crew);
    var claimed := ListClaims(crew);
    var live := CountLive(crew);
    StatesPartition(crew, crew.order);
    status := Status(live, available, inProgress, completed, claimed);
  }
}
