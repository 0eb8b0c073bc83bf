/**
 * Where crews are kept (core/broker-store.ts): the bounded in-memory store and its recency order,
 * the capacity of the file store, and the stored form of a crew.
 */
module BrokerStore {
  import opened Broker
  import opened BrokerFacts

  type Code = nat

  /** A crew as the store holds it: its code, its repository reference, its state. */
  datatype Record = Record(code: Code, repo: string, crew: Crew)

  function NewRecord(code: Code, repo: string): Record {
    Record(code, repo, EmptyCrew())
  }

  // ---- Recency ----------------------------------------------------------------------------

  /** Move to the end, or add there. */
  function Touch(s: seq<Code>, c: Code): (r: seq<Code>)
    ensures forall x :: x in r <==> x in s || x == c
  {
    Remove(s, c) + [c]
  }

  /** The last `n` elements. */
  function LastOf(s: seq<Code>, n: nat): (r: seq<Code>)
    ensures |r| <= n
  {
    if |s| <= n then s else s[|s| - n..]
  }

  datatype Access = Get(code: Code) | Create(code: Code)

  /** The unbounded recency list: a create, or a get that hits the last `limit` codes, moves its code to the end. */
  function Recency(s: seq<Code>, a: Access, limit: nat): seq<Code> {
    match a
    case Create(c) => Touch(s, c)
    case Get(c) => if c in LastOf(s, limit) then Touch(s, c) else s
  }

  function RecencyAll(accesses: seq<Access>, limit: nat): seq<Code> {
    if accesses == [] then [] else Recency(RecencyAll(accesses[..|accesses| - 1], limit), accesses[|accesses| - 1], limit)
  }

  lemma {:induction false} RemoveLength(s: seq<Code>, c: Code)
    requires NoDuplicates(s)
    ensures NoDuplicates(Remove(s, c)) && |Remove(s, c)| == (if c in s then |s| - 1 else |s|)
    ensures c !in s ==> Remove(s, c) == s
  {
    if s != [] {
      assert forall i :: 0 <= i < |s[1..]| ==> s[1..][i] == s[i + 1];
      RemoveLength(s[1..], c);
      assert s[0] !in Remove(s[1..], c);
    }
  }

  lemma {:induction false} RemoveConcat(a: seq<Code>, b: seq<Code>, c: Code)
    ensures Remove(a + b, c) == Remove(a, c) + Remove(b, c)
  {
    if a == [] {
      assert a + b == b;
    } else {
      assert (a + b)[1..] == a[1..] + b;
      RemoveConcat(a[1..], b, c);
    }
  }

  lemma TouchOnce(s: seq<Code>, c: Code)
    requires NoDuplicates(s)
    ensures NoDuplicates(Touch(s, c))
  {
    RemoveLength(s, c);
  }

  lemma SplitOnce(a: seq<Code>, b: seq<Code>)
    requires NoDuplicates(a + b)
    ensures NoDuplicates(a) && NoDuplicates(b) && forall x :: x in b ==> x !in a
  {
    assert forall i :: 0 <= i < |a| ==> (a + b)[i] == a[i];
    assert forall j :: 0 <= j < |b| ==> (a + b)[|a| + j] == b[j];
  }

  /** Moving a code to the end of a list and of its last `n` codes gives the same last `n` codes. */
  lemma TouchLast(s: seq<Code>, c: Code, n: nat)
    requires NoDuplicates(s) && n >= 1
    ensures LastOf(Touch(s, c), n) == LastOf(Touch(LastOf(s, n), c), n)
  {
    hide NoDuplicates, Remove;
    if |s| > n {
      var a, b := s[..|s| - n], s[|s| - n..];
      assert s == a + b;
      SplitOnce(a, b);
      RemoveConcat(a, b, c);
      RemoveLength(b, c);
      assert Touch(s, c) == Remove(a, c) + Touch(b, c);
      LastOfConcat(Remove(a, c), Touch(b, c), n);
    }
  }

  lemma LastOfConcat(a: seq<Code>, b: seq<Code>, n: nat)
    requires |b| >= n
    ensures LastOf(a + b, n) == LastOf(b, n)
  {
  }

  /** InMemoryBrokerStore: a map in insertion order, evicting from the front. */
  class InMemoryBrokerStore {
    var crews: map<Code, Record>
    var order: seq<Code>
    const limit: nat

    ghost predicate Valid()
      reads this
    {
      NoDuplicates(order) && (forall c :: c in order <==> c in crews) && |order| <= limit
    }

    constructor (limit: nat)
      ensures Valid() && order == [] && this.limit == limit
    {
      this.limit := limit;
      crews, order := map[], [];
    }

    method HasCrew(code: Code) returns (has: bool)
      requires Valid()
      ensures has <==> code in order
    {
      has := code in crews;
    }

    method GetCrew(code: Code) returns (known: bool, record: Record)
      requires Valid()
      modifies `order
      ensures Valid() && (known <==> code in old(order))
      ensures known ==> record == crews[code]
      ensures order == if known then Touch(old(order), code) else old(order)
    {
      record := NewRecord(code, "");
      known := code in crews;
      if known {
        record := crews[code];
        RemoveLength(order, code);
        order := Remove(order, code) + [code];
      }
    }

    /** evictIfNeeded. */
    method EvictIfNeeded()
      requires NoDuplicates(order) && forall c :: c in order <==> c in crews
      modifies this
      ensures Valid() && order == LastOf(old(order), limit)
      ensures forall c :: c in order ==> crews[c] == old(crews)[c]
    {
      ghost var was, kept := order, crews;
      ghost var k := 0;
      while |order| > limit
        invariant 0 <= k <= |was| && order == was[k..] && (k > 0 ==> |order| >= limit)
        invariant forall c :: c in order <==> c in crews
        invariant forall c :: c in crews ==> c in kept && crews[c] == kept[c]
        decreases |order|
      {
        var oldest := order[0];
        assert oldest !in was[k + 1..];
        assert forall c :: c in order <==> c == oldest || c in was[k + 1..];
        crews := crews - {oldest};
        order := order[1..];
        k := k + 1;
      }
    }

    /** createCrew. For limit >= 1 the created crew is in the store afterwards. */
    method CreateCrew(code: Code, repo: string) returns (record: Record)
      requires Valid()
      modifies this
      ensures Valid() && order == LastOf(Touch(old(order), code), limit)
      ensures record == if code in old(order) then old(crews)[code] else NewRecord(code, repo)
      ensures limit >= 1 ==> code in crews && crews[code] == record
      ensures forall c :: c in order && c != code ==> crews[c] == old(crews)[c]
    {
      RemoveLength(order, code);
      TouchOnce(order, code);
      if code in crews {
        record := crews[code];
        order := Remove(order, code) + [code];
      } else {
        record := NewRecord(code, repo);
        crews := crews[code := record];
        order := order + [code];
        EvictIfNeeded();
      }
    }
  }

  /** What one access does to the order of the store, as its methods promise. */
  function Stored(order: seq<Code>, a: Access, limit: nat): seq<Code> {
    match a
    case Create(c) => LastOf(Touch(order, c), limit)
    case Get(c) => if c in order then Touch(order, c) else order
  }

  function StoredAll(accesses: seq<Access>, limit: nat): seq<Code> {
    if accesses == [] then [] else Stored(StoredAll(accesses[..|accesses| - 1], limit), accesses[|accesses| - 1], limit)
  }

  lemma {:induction false} RecencyOnce(accesses: seq<Access>, limit: nat)
    ensures NoDuplicates(RecencyAll(accesses, limit))
  {
    if accesses != [] {
      RecencyOnce(accesses[..|accesses| - 1], limit);
      TouchOnce(RecencyAll(accesses[..|accesses| - 1], limit), accesses[|accesses| - 1].code);
    }
  }

  /**
   * Main result: for a limit of at least one, after any accesses the store holds exactly the last
   * `limit` codes of the unbounded recency list, in order, and a created code is among them.
   */
  lemma {:induction false} StoreIsRecency(accesses: seq<Access>, limit: nat)
    requires limit >= 1
    ensures StoredAll(accesses, limit) == LastOf(RecencyAll(accesses, limit), limit)
    ensures accesses != [] && accesses[|accesses| - 1].Create? ==> accesses[|accesses| - 1].code in StoredAll(accesses, limit)
  {
    if accesses != [] {
      var before, last := accesses[..|accesses| - 1], accesses[|accesses| - 1];
      StoreIsRecency(before, limit);
      RecencyOnce(before, limit);
      var recent := RecencyAll(before, limit);
      TouchLast(recent, last.code, limit);
      var kept := LastOf(recent, limit);
      if last.code in kept {
        LastOnceToo(recent, limit);
        RemoveLength(kept, last.code);
        assert |Touch(kept, last.code)| == |kept|;
      }
      var touched := Touch(kept, last.code);
      assert LastOf(touched, limit)[|LastOf(touched, limit)| - 1] == last.code;
    }
  }

  lemma LastOnceToo(s: seq<Code>, n: nat)
    requires NoDuplicates(s)
    ensures NoDuplicates(LastOf(s, n))
  {
  }

  // ---- The file store ---------------------------------------------------------------------

  datatype Creation = Created(record: Record) | AtCapacity

  /** FileBrokerStore: it refuses new crews at its limit and never evicts. */
  class FileBrokerStore {
    var crews: map<Code, Record>
    const limit: nat

    constructor (loaded: map<Code, Record>, limit: nat)
      ensures crews == loaded && this.limit == limit
    {
      crews := loaded;
      this.limit := limit;
    }

    method CreateCrew(code: Code, repo: string) returns (c: Creation)
      modifies `crews
      ensures c.AtCapacity? <==> code !in old(crews) && |old(crews)| >= limit
      ensures c.Created? ==> c.record == (if code in old(crews) then old(crews)[code] else NewRecord(code, repo))
      ensures crews == if c.Created? then old(crews)[code := c.record] else old(crews)
      ensures |old(crews)| <= limit ==> |crews| <= limit
    {
      if code in crews {
        c := Created(crews[code]);
        assert crews == crews[code := crews[code]];
      } else if |crews| >= limit {
        c := AtCapacity;
      } else {
        c := Created(NewRecord(code, repo));
        crews := crews[code := c.record];
      }
    }
  }

  // ---- The stored form of a crew ----------------------------------------------------------

  /** SerializedDaemonState: everything but the socket. */
  datatype StoredDaemon = StoredDaemon(id: DaemonId, name: string, operator: string, lastHeartbeat: int, disconnectedAt: Stamp,
                                       claimedItems: seq<ItemId>, released: bool)

  datatype StoredCrew = StoredCrew(items: seq<Entry>, daemons: seq<StoredDaemon>)

  function StoreDaemon(d: Daemon): StoredDaemon {
    StoredDaemon(d.id, d.name, d.operator, d.lastHeartbeat, d.disconnectedAt, d.claimedItems, d.released)
  }

  /** serializeCrewState. */
  function Serialize(crew: Crew): StoredCrew
    requires WellFormed(crew)
  {
    StoredCrew(seq(|crew.order|, i requires 0 <= i < |crew.order| => crew.items[crew.order[i]]),
               seq(|crew.daemonOrder|, i requires 0 <= i < |crew.daemonOrder| => StoreDaemon(crew.daemons[crew.daemonOrder[i]])))
  }

  /** `new Set(array)`: first occurrences only. */
  function Distinct(s: seq<ItemId>): seq<ItemId> {
    if s == [] then [] else With(Distinct(s[..|s| - 1]), s[|s| - 1])
  }

  function LoadDaemon(d: StoredDaemon): Daemon {
    Daemon(d.id, d.name, d.operator, false, d.lastHeartbeat, d.disconnectedAt, Distinct(d.claimedItems), d.released)
  }

  function LoadItems(stored: seq<Entry>): (r: (map<ItemId, Entry>, seq<ItemId>)) {
    if stored == [] then (map[], [])
    else
      var e := stored[|stored| - 1];
      var before := LoadItems(stored[..|stored| - 1]);
      (before.0[e.path := e], With(before.1, e.path))
  }

  function LoadDaemons(stored: seq<StoredDaemon>): (r: (map<DaemonId, Daemon>, seq<DaemonId>)) {
    if stored == [] then (map[], [])
    else
      var d := stored[|stored| - 1];
      var before := LoadDaemons(stored[..|stored| - 1]);
      (before.0[d.id := LoadDaemon(d)], With(before.1, d.id))
  }

  /** deserializeCrewState fills its maps in two loops. */
  method Deserialize(stored: StoredCrew) returns (crew: Crew)
    ensures crew == Crew(LoadItems(stored.items).0, LoadItems(stored.items).1, LoadDaemons(stored.daemons).0, LoadDaemons(stored.daemons).1)
  {
    var items: map<ItemId, Entry>, order: seq<ItemId> := map[], [];
    var i := 0;
    while i < |stored.items|
      invariant 0 <= i <= |stored.items| && (items, order) == LoadItems(stored.items[..i])
    {
      var e := stored.items[i];
      assert stored.items[..i + 1][..i] == stored.items[..i];
      items, order := items[e.path := e], With(order, e.path);
      i := i + 1;
    }
    assert stored.items[..|stored.items|] == stored.items;
    var daemons: map<DaemonId, Daemon>, daemonOrder: seq<DaemonId> := map[], [];
    var k := 0;
    while k < |stored.daemons|
      invariant 0 <= k <= |stored.daemons| && (daemons, daemonOrder) == LoadDaemons(stored.daemons[..k])
    {
      var d := stored.daemons[k];
      assert stored.daemons[..k + 1][..k] == stored.daemons[..k];
      daemons, daemonOrder := daemons[d.id := LoadDaemon(d)], With(daemonOrder, d.id);
      k := k + 1;
    }
    assert stored.daemons[..|stored.daemons|] == stored.daemons;
    crew := Crew(items, order, daemons, daemonOrder);
  }

  lemma FreshAt(s: seq<nat>, n: nat)
    requires NoDuplicates(s) && n < |s|
    ensures s[n] !in s[..n]
  {
  }

  lemma {:induction false} DistinctPrefix(s: seq<ItemId>, n: nat)
    requires NoDuplicates(s) && n <= |s|
    ensures Distinct(s[..n]) == s[..n]
  {
    hide NoDuplicates;
    if n > 0 {
      FreshAt(s, n - 1);
      DistinctPrefix(s, n - 1);
      assert s[..n][..n - 1] == s[..n - 1] && s[..n] == s[..n - 1] + [s[n - 1]];
    }
  }

  lemma DistinctOfDistinct(s: seq<ItemId>)
    requires NoDuplicates(s)
    ensures Distinct(s) == s
  {
    DistinctPrefix(s, |s|);
    assert s[..|s|] == s;
  }

  lemma {:induction false} ItemOrderReturns(crew: Crew, n: nat)
    requires WellFormed(crew) && n <= |crew.order|
    ensures LoadItems(Serialize(crew).items[..n]).1 == crew.order[..n]
  {
    hide NoDuplicates;
    if n > 0 {
      FreshAt(crew.order, n - 1);
      ItemOrderReturns(crew, n - 1);
      var stored := Serialize(crew).items;
      assert stored[..n][..n - 1] == stored[..n - 1] && stored[..n][n - 1] == crew.items[crew.order[n - 1]];
      assert crew.order[..n] == crew.order[..n - 1] + [crew.order[n - 1]];
    }
  }

  lemma {:induction false} ItemsReturn(crew: Crew, n: nat, p: ItemId)
    requires WellFormed(crew) && n <= |crew.order|
    ensures var loaded := LoadItems(Serialize(crew).items[..n]).0;
      && (p in loaded <==> p in crew.order[..n])
      && (p in loaded ==> loaded[p] == crew.items[p])
  {
    hide NoDuplicates, With;
    if n > 0 {
      ItemsReturn(crew, n - 1, p);
      var stored := Serialize(crew).items;
      assert stored[..n][..n - 1] == stored[..n - 1] && stored[..n][n - 1] == crew.items[crew.order[n - 1]];
      assert crew.order[..n] == crew.order[..n - 1] + [crew.order[n - 1]];
    }
  }

  lemma {:induction false} DaemonOrderReturns(crew: Crew, n: nat)
    requires WellFormed(crew) && n <= |crew.daemonOrder|
    ensures LoadDaemons(Serialize(crew).daemons[..n]).1 == crew.daemonOrder[..n]
  {
    hide NoDuplicates, LoadDaemon;
    if n > 0 {
      FreshAt(crew.daemonOrder, n - 1);
      DaemonOrderReturns(crew, n - 1);
      var stored := Serialize(crew).daemons;
      assert stored[..n][..n - 1] == stored[..n - 1] && stored[..n][n - 1].id == crew.daemonOrder[n - 1];
      assert crew.daemonOrder[..n] == crew.daemonOrder[..n - 1] + [crew.daemonOrder[n - 1]];
    }
  }

  lemma DaemonReturns(d: Daemon)
    requires NoDuplicates(d.claimedItems)
    ensures LoadDaemon(StoreDaemon(d)) == d.(live := false)
  {
    DistinctOfDistinct(d.claimedItems);
  }

  lemma {:induction false} DaemonsReturn(crew: Crew, n: nat, d: DaemonId)
    requires WellFormed(crew) && n <= |crew.daemonOrder|
    ensures var loaded := LoadDaemons(Serialize(crew).daemons[..n]).0;
      && (d in loaded <==> d in crew.daemonOrder[..n])
      && (d in loaded ==> loaded[d] == crew.daemons[d].(live := false))
  {
    hide NoDuplicates, LoadDaemon, With;
    if n > 0 {
      DaemonsReturn(crew, n - 1, d);
      var stored := Serialize(crew).daemons;
      var last := crew.daemonOrder[n - 1];
      assert stored[..n][..n - 1] == stored[..n - 1] && stored[..n][n - 1] == StoreDaemon(crew.daemons[last]);
      assert crew.daemonOrder[..n] == crew.daemonOrder[..n - 1] + [last];
      DaemonReturns(crew.daemons[last]);
    }
  }

  /** Main result: reading a stored crew back is a restart of the broker; only the sockets are lost. */
  lemma StoreRoundTrip(crew: Crew)
    requires WellFormed(crew)
    ensures var stored := Serialize(crew);
      Crew(LoadItems(stored.items).0, LoadItems(stored.items).1, LoadDaemons(stored.daemons).0, LoadDaemons(stored.daemons).1)
      == Restart(crew)
  {
    hide NoDuplicates, LoadItems, LoadDaemons;
    var stored := Serialize(crew);
    ItemOrderReturns(crew, |crew.order|);
    forall p ensures var loaded := LoadItems(stored.items[..|crew.order|]).0;
      && (p in loaded <==> p in crew.order[..|crew.order|]) && (p in loaded ==> loaded[p] == crew.items[p])
    {
      ItemsReturn(crew, |crew.order|, p);
    }
    forall d ensures var loaded := LoadDaemons(stored.daemons[..|crew.daemonOrder|]).0;
      && (d in loaded <==> d in crew.daemonOrder[..|crew.daemonOrder|])
      && (d in loaded ==> loaded[d] == crew.daemons[d].(live := false))
    {
      DaemonsReturn(crew, |crew.daemonOrder|, d);
    }
    DaemonOrderReturns(crew, |crew.daemonOrder|);
    assert stored.items[..|crew.order|] == stored.items && crew.order[..|crew.order|] == crew.order;
    assert stored.daemons[..|crew.daemonOrder|] == stored.daemons && crew.daemonOrder[..|crew.daemonOrder|] == crew.daemonOrder;
    assert LoadItems(stored.items).0 == crew.items;
  }
}
