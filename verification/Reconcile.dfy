/**
 * The watch-mode reconcile pass (core/orchestrate-event-loop.ts): the tracked items follow the
 * work-item files that were scanned, and a second pass over the same files changes nothing.
 */
module Reconcile {
  import opened OrchestratorTypes
  import opened Poll
  import opened PollFacts

  // ---- Order-insensitive comparison -------------------------------------------------------

  function Insert(x: Id, s: seq<Id>): seq<Id> {
    if s == [] || x <= s[0] then [x] + s else [s[0]] + Insert(x, s[1..])
  }

  /** `[...s].sort()`. */
  function Sorted(s: seq<Id>): seq<Id> {
    if s == [] then [] else Insert(s[0], Sorted(s[1..]))
  }

  predicate IsSorted(s: seq<Id>) {
    forall i, j :: 0 <= i < j < |s| ==> s[i] <= s[j]
  }

  lemma {:induction false} InsertKeeps(x: Id, s: seq<Id>)
    ensures multiset(Insert(x, s)) == multiset(s) + multiset{x}
  {
    if s != [] && x > s[0] {
      assert s == [s[0]] + s[1..];
      InsertKeeps(x, s[1..]);
    }
  }

  lemma {:induction false} InsertMembers(x: Id, s: seq<Id>)
    ensures forall y :: y in Insert(x, s) <==> y in s || y == x
  {
    if s != [] && x > s[0] {
      InsertMembers(x, s[1..]);
    }
  }

  lemma {:induction false} InsertSorts(x: Id, s: seq<Id>)
    requires IsSorted(s)
    ensures IsSorted(Insert(x, s))
  {
    if s != [] && x > s[0] {
      InsertSorts(x, s[1..]);
      InsertMembers(x, s[1..]);
      assert forall k :: 0 <= k < |Insert(x, s[1..])| ==> Insert(x, s[1..])[k] in Insert(x, s[1..]);
    }
  }

  lemma {:induction false} SortedFacts(s: seq<Id>)
    ensures IsSorted(Sorted(s)) && multiset(Sorted(s)) == multiset(s)
  {
    if s != [] {
      assert s == [s[0]] + s[1..];
      SortedFacts(s[1..]);
      InsertSorts(s[0], Sorted(s[1..]));
      InsertKeeps(s[0], Sorted(s[1..]));
    }
  }

  lemma SameHead(a: seq<Id>, b: seq<Id>)
    requires IsSorted(a) && IsSorted(b) && multiset(a) == multiset(b) && a != []
    ensures b != [] && b[0] <= a[0]
  {
    assert a[0] in multiset(a);
    assert a[0] in multiset(b);
    var k :| 0 <= k < |b| && b[k] == a[0];
  }

  lemma {:induction false} SortedUnique(a: seq<Id>, b: seq<Id>)
    requires IsSorted(a) && IsSorted(b) && multiset(a) == multiset(b)
    ensures a == b
  {
    if a == [] {
      assert |multiset(b)| == |b|;
    } else {
      SameHead(a, b);
      SameHead(b, a);
      assert a == [a[0]] + a[1..] && b == [b[0]] + b[1..];
      assert multiset(a[1..]) == multiset(a) - multiset{a[0]};
      assert multiset(b[1..]) == multiset(b) - multiset{b[0]};
      SortedUnique(a[1..], b[1..]);
    }
  }

  /** arraysEqualSorted decides whether two lists hold the same ids the same number of times. */
  method ArraysEqualSorted(a: seq<Id>, b: seq<Id>) returns (equal: bool)
    ensures equal <==> multiset(a) == multiset(b)
  {
    SortedFacts(a);
    SortedFacts(b);
    if |a| != |b| {
      assert |multiset(a)| == |a| && |multiset(b)| == |b|;
      return false;
    }
    var aSorted, bSorted := Sorted(a), Sorted(b);
    assert |aSorted| == |multiset(aSorted)| && |bSorted| == |multiset(bSorted)|;
    var i := 0;
    while i < |aSorted|
      invariant 0 <= i <= |aSorted| == |bSorted| && aSorted[..i] == bSorted[..i]
    {
      if aSorted[i] != bSorted[i] {
        if multiset(a) == multiset(b) {
          SortedUnique(aSorted, bSorted);
        }
        return false;
      }
      i := i + 1;
    }
    assert aSorted == aSorted[..i] && bSorted == bSorted[..i];
    equal := true;
  }

  // ---- Field-level difference -------------------------------------------------------------

  datatype Field = Dependencies | BundleWith | PriorityField | Status | LineageToken | ManualReview | Title | Domain

  /** The payloads agree on a structural field, lists up to order. */
  predicate Agrees(a: WorkItem, b: WorkItem, f: Field) {
    match f
    case Dependencies => multiset(a.dependencies) == multiset(b.dependencies)
    case BundleWith => multiset(a.bundleWith) == multiset(b.bundleWith)
    case PriorityField => a.priority == b.priority
    case Status => a.status == b.status
    case LineageToken => a.lineageToken == b.lineageToken
    case ManualReview => a.requiresManualReview == b.requiresManualReview
    case Title => a.title == b.title
    case Domain => a.domain == b.domain
  }

  predicate Matches(a: WorkItem, b: WorkItem) {
    && multiset(a.dependencies) == multiset(b.dependencies) && multiset(a.bundleWith) == multiset(b.bundleWith)
    && a.priority == b.priority && a.status == b.status && a.lineageToken == b.lineageToken
    && a.requiresManualReview == b.requiresManualReview && a.title == b.title && a.domain == b.domain
  }

  function Rank(f: Field): nat {
    match f
    case Dependencies => 0
    case BundleWith => 1
    case PriorityField => 2
    case Status => 3
    case LineageToken => 4
    case ManualReview => 5
    case Title => 6
    case Domain => 7
  }

  /** The fields noted so far are, in their order, the changed ones among the first `n`. */
  ghost predicate Noted(before: WorkItem, after: WorkItem, changed: seq<Field>, n: nat) {
    && (forall f :: f in changed <==> Rank(f) < n && !Agrees(before, after, f))
    && (forall i, j :: 0 <= i < j < |changed| ==> Rank(changed[i]) < Rank(changed[j]))
  }

  method Note(before: WorkItem, after: WorkItem, changed: seq<Field>, f: Field, same: bool) returns (noted: seq<Field>)
    requires Noted(before, after, changed, Rank(f)) && same == Agrees(before, after, f)
    ensures Noted(before, after, noted, Rank(f) + 1)
  {
    noted := if same then changed else changed + [f];
    assert forall i :: 0 <= i < |changed| ==> changed[i] in changed;
    assert forall g :: Rank(g) == Rank(f) ==> g == f;
  }

  /** diffWorkItem names exactly the structural fields that changed, each once. */
  method DiffWorkItem(before: WorkItem, after: WorkItem) returns (changed: seq<Field>)
    ensures forall f :: f in changed <==> !Agrees(before, after, f)
    ensures forall i, j :: 0 <= i < j < |changed| ==> changed[i] != changed[j]
    ensures changed == [] <==> Matches(before, after)
  {
    hide Agrees, Noted;
    AgreesMeans(before, after);
    NothingNoted(before, after);
    var dependencies := ArraysEqualSorted(before.dependencies, after.dependencies);
    var bundle := ArraysEqualSorted(before.bundleWith, after.bundleWith);
    changed := Note(before, after, [], Dependencies, dependencies);
    changed := Note(before, after, changed, BundleWith, bundle);
    changed := Note(before, after, changed, PriorityField, before.priority == after.priority);
    changed := Note(before, after, changed, Status, before.status == after.status);
    changed := Note(before, after, changed, LineageToken, before.lineageToken == after.lineageToken);
    changed := Note(before, after, changed, ManualReview, before.requiresManualReview == after.requiresManualReview);
    changed := Note(before, after, changed, Title, before.title == after.title);
    changed := Note(before, after, changed, Domain, before.domain == after.domain);
    AllNoted(before, after, changed);
  }

  lemma NothingNoted(before: WorkItem, after: WorkItem)
    ensures Noted(before, after, [], Rank(Dependencies))
  {
  }

  lemma AgreesMeans(a: WorkItem, b: WorkItem)
    ensures Agrees(a, b, Dependencies) <==> multiset(a.dependencies) == multiset(b.dependencies)
    ensures Agrees(a, b, BundleWith) <==> multiset(a.bundleWith) == multiset(b.bundleWith)
    ensures Agrees(a, b, PriorityField) <==> a.priority == b.priority
    ensures Agrees(a, b, Status) <==> a.status == b.status
    ensures Agrees(a, b, LineageToken) <==> a.lineageToken == b.lineageToken
    ensures Agrees(a, b, ManualReview) <==> a.requiresManualReview == b.requiresManualReview
    ensures Agrees(a, b, Title) <==> a.title == b.title
    ensures Agrees(a, b, Domain) <==> a.domain == b.domain
  {
  }

  lemma AllNoted(before: WorkItem, after: WorkItem, changed: seq<Field>)
    requires Noted(before, after, changed, 8)
    ensures forall f :: f in changed <==> !Agrees(before, after, f)
    ensures forall i, j :: 0 <= i < j < |changed| ==> changed[i] != changed[j]
    ensures changed == [] <==> Matches(before, after)
  {
    hide Agrees, Matches;
    MatchesMeans(before, after);
    if changed != [] {
      assert changed[0] in changed;
    }
  }

  lemma MatchesMeans(a: WorkItem, b: WorkItem)
    ensures Matches(a, b) <==> forall f :: Agrees(a, b, f)
  {
    if forall f :: Agrees(a, b, f) {
      assert Agrees(a, b, Dependencies) && Agrees(a, b, BundleWith) && Agrees(a, b, PriorityField) && Agrees(a, b, Status)
          && Agrees(a, b, LineageToken) && Agrees(a, b, ManualReview) && Agrees(a, b, Title) && Agrees(a, b, Domain);
    }
  }

  // ---- One pass ---------------------------------------------------------------------------

  /** RECONCILE_PRESERVE_STATES. */
  predicate Preserved(s: State) {
    s.Merged? || s.ForwardFixPending? || s.FixForwardFailed? || s.FixingForward? || s.Done? || s.Blocked? || s.Stuck?
  }

  /** The position of the last scanned file with an id, or -1. */
  function ScannedAt(scan: seq<WorkItem>, id: Id): (k: int)
    ensures -1 <= k < |scan|
    ensures k >= 0 ==> scan[k].id == id
    ensures k < 0 ==> forall j :: 0 <= j < |scan| ==> scan[j].id != id
  {
    if scan == [] then -1
    else if scan[|scan| - 1].id == id then |scan| - 1
    else ScannedAt(scan[..|scan| - 1], id)
  }

  predicate UniqueScan(scan: seq<WorkItem>) {
    forall i, j :: 0 <= i < j < |scan| ==> scan[i].id != scan[j].id
  }

  predicate HasId(items: seq<Item>, id: Id) {
    Find(items, id) >= 0
  }

  /** A tracked item whose file is gone and whose state is not preserved is dropped. */
  predicate Kept(it: Item, scan: seq<WorkItem>) {
    ScannedAt(scan, it.id) >= 0 || Preserved(it.state)
  }

  /** A kept item takes over the scanned payload when it differs in a structural field. */
  function Refreshed(it: Item, scan: seq<WorkItem>): Item {
    var k := ScannedAt(scan, it.id);
    if k >= 0 && !Matches(it.workItem, scan[k]) then it.(workItem := scan[k]) else it
  }

  /** The items left after some ids were removed. */
  function WithoutIds(items: seq<Item>, ids: seq<Id>): seq<Item> {
    if items == [] then []
    else
      var last := |items| - 1;
      WithoutIds(items[..last], ids) + (if items[last].id in ids then [] else [items[last]])
  }

  function RefreshedAll(items: seq<Item>, scan: seq<WorkItem>): (r: seq<Item>)
    ensures |r| == |items| && forall k :: 0 <= k < |items| ==> r[k] == Refreshed(items[k], scan)
  {
    seq(|items|, k requires 0 <= k < |items| => Refreshed(items[k], scan))
  }

  /** The ids a pass removes, in order. */
  function Removed(items: seq<Item>, scan: seq<WorkItem>): (ids: seq<Id>)
    ensures forall id :: id in ids <==> exists k :: 0 <= k < |items| && items[k].id == id && !Kept(items[k], scan)
  {
    if items == [] then []
    else
      var last := |items| - 1;
      Removed(items[..last], scan) + (if Kept(items[last], scan) then [] else [items[last].id])
  }

  /** The scanned files no tracked item has, in scan order. */
  function Newcomers(items: seq<Item>, scan: seq<WorkItem>): (news: seq<WorkItem>)
    ensures forall w :: w in news <==> w in scan && !HasId(items, w.id)
  {
    if scan == [] then []
    else
      var last := |scan| - 1;
      Newcomers(items, scan[..last]) + (if HasId(items, scan[last].id) then [] else [scan[last]])
  }

  function Added(added: seq<WorkItem>, now: int): (r: seq<Item>)
    ensures |r| == |added| && forall k :: 0 <= k < |added| ==> r[k] == NewItem(added[k], now)
  {
    seq(|added|, k requires 0 <= k < |added| => NewItem(added[k], now))
  }

  /** The tracked items after a pass: those that stay, refreshed, and then the new ones. */
  function Reconciled(items: seq<Item>, scan: seq<WorkItem>, now: int): seq<Item> {
    RefreshedAll(WithoutIds(items, Removed(items, scan)), scan) + Added(Newcomers(items, scan), now)
  }

  /** The orchestrator's tracked items, as the pass updates them. */
  class Watch {
    var items: seq<Item>

    constructor (items: seq<Item>)
      ensures this.items == items
    {
      this.items := items;
    }

    /** addItem, for an id that is not tracked. */
    method AddItem(w: WorkItem, now: int)
      modifies this
      ensures items == old(items) + [NewItem(w, now)]
    {
      items := items + [NewItem(w, now)];
    }

    method RemoveItem(id: Id)
      modifies this
      ensures items == WithoutIds(old(items), [id])
    {
      var kept: seq<Item> := [];
      var i := 0;
      while i < |items|
        invariant 0 <= i <= |items| && items == old(items) && kept == WithoutIds(items[..i], [id])
      {
        assert items[..i + 1][..i] == items[..i];
        if items[i].id != id {
          kept := kept + [items[i]];
        }
        i := i + 1;
      }
      assert items[..|items|] == items;
      items := kept;
    }

    method ReplaceWorkItem(id: Id, w: WorkItem)
      modifies this
      ensures var k := Find(old(items), id);
        items == if k < 0 then old(items) else old(items)[k := old(items)[k].(workItem := w)]
    {
      var k := Find(items, id);
      if k >= 0 {
        items := items[k := items[k].(workItem := w)];
      }
    }

    /** reconcileWatchItems; the result says whether anything changed. */
    method ReconcileWatchItems(scan: seq<WorkItem>, now: int) returns (changed: bool)
      requires DistinctIds(items) && UniqueScan(scan)
      modifies this
      ensures items == Reconciled(old(items), scan, now)
      ensures !changed ==> items == old(items)
    {
      hide Reconciled, WithoutIds, Differs, RefreshedAll, Added, DistinctIds, UniqueScan;
      var tracked := items;
      var added := FindNew(tracked, scan);
      var removed := FindRemoved(tracked, scan);
      var edited := FindEdited(tracked, scan);
      changed := added != [] || removed != [] || edited != [];
      if !changed {
        assert forall id :: !Differs(tracked, scan, id);
        NothingToDo(tracked, scan, now);
        return;
      }
      AddAll(added, now);
      RemoveAll(removed, items);
      NewcomersStay(tracked, scan, now);
      ghost var left := items;
      EditedAreScanned(tracked, scan);
      ApplyEdits(edited, scan, items);
      Assemble(tracked, scan, now, edited, left, items);
    }

    /** The loop of the pass that adds items. */
    method AddAll(added: seq<WorkItem>, now: int)
      modifies this
      ensures items == old(items) + Added(added, now)
    {
      var i := 0;
      while i < |added|
        invariant 0 <= i <= |added| && items == old(items) + Added(added[..i], now)
      {
        AddItem(added[i], now);
        i := i + 1;
      }
      assert added[..|added|] == added;
    }

    /** The loop of the pass that removes items. */
    method RemoveAll(removed: seq<Id>, ghost all: seq<Item>)
      requires items == all
      modifies this
      ensures items == WithoutIds(all, removed)
    {
      var j := 0;
      WithoutNothing(all);
      while j < |removed|
        invariant 0 <= j <= |removed| && items == WithoutIds(all, removed[..j])
      {
        RemoveItem(removed[j]);
        WithoutOneMore(all, removed[..j], removed[j]);
        assert removed[..j + 1] == removed[..j] + [removed[j]];
        j := j + 1;
      }
      assert removed[..|removed|] == removed;
    }

    /** The last loop of the pass: every edited item takes over its scanned payload. */
    method ApplyEdits(edited: seq<Id>, scan: seq<WorkItem>, ghost left: seq<Item>)
      requires items == left && DistinctIds(left)
      requires forall id :: id in edited ==> ScannedAt(scan, id) >= 0
      modifies this
      ensures |items| == |left|
      ensures forall m :: 0 <= m < |left| ==>
        items[m] == if left[m].id in edited then left[m].(workItem := scan[ScannedAt(scan, left[m].id)]) else left[m]
    {
      var k := 0;
      while k < |edited|
        invariant 0 <= k <= |edited| && |items| == |left|
        invariant forall m :: 0 <= m < |left| ==>
          items[m] == if left[m].id in edited[..k] then left[m].(workItem := scan[ScannedAt(scan, left[m].id)]) else left[m]
      {
        var id := edited[k];
        assert edited[..k + 1] == edited[..k] + [id];
        ReplaceWorkItem(id, scan[ScannedAt(scan, id)]);
        k := k + 1;
      }
      assert edited[..|edited|] == edited;
    }

    method FindNew(tracked: seq<Item>, scan: seq<WorkItem>) returns (added: seq<WorkItem>)
      ensures added == Newcomers(tracked, scan)
    {
      added := [];
      var i := 0;
      while i < |scan|
        invariant 0 <= i <= |scan| && added == Newcomers(tracked, scan[..i])
      {
        assert scan[..i + 1][..i] == scan[..i];
        if Find(tracked, scan[i].id) < 0 {
          added := added + [scan[i]];
        }
        i := i + 1;
      }
      assert scan[..|scan|] == scan;
    }

    method FindRemoved(tracked: seq<Item>, scan: seq<WorkItem>) returns (removed: seq<Id>)
      ensures removed == Removed(tracked, scan)
    {
      removed := [];
      var i := 0;
      while i < |tracked|
        invariant 0 <= i <= |tracked| && removed == Removed(tracked[..i], scan)
      {
        assert tracked[..i + 1][..i] == tracked[..i];
        if ScannedAt(scan, tracked[i].id) < 0 && !Preserved(tracked[i].state) {
          removed := removed + [tracked[i].id];
        }
        i := i + 1;
      }
      assert tracked[..|tracked|] == tracked;
    }

    /** The ids of tracked items whose scanned payload differs. */
    method FindEdited(tracked: seq<Item>, scan: seq<WorkItem>) returns (edited: seq<Id>)
      requires DistinctIds(tracked) && UniqueScan(scan)
      ensures forall i, j :: 0 <= i < j < |edited| ==> edited[i] != edited[j]
      ensures forall id :: id in edited <==> Differs(tracked, scan, id)
    {
      edited := [];
      var i := 0;
      while i < |scan|
        invariant 0 <= i <= |scan|
        invariant forall id :: id in edited <==> Differs(tracked, scan, id) && ScannedAt(scan, id) < i
        invariant forall m, n :: 0 <= m < n < |edited| ==> edited[m] != edited[n]
      {
        var at := Find(tracked, scan[i].id);
        assert ScannedAt(scan, scan[i].id) == i;
        if at >= 0 {
          var diff := DiffWorkItem(tracked[at].workItem, scan[i]);
          if diff != [] {
            edited := edited + [scan[i].id];
          }
        }
        i := i + 1;
      }
    }
  }

  /** A tracked item and its scanned file differ in a structural field. */
  predicate Differs(items: seq<Item>, scan: seq<WorkItem>, id: Id) {
    var at, k := Find(items, id), ScannedAt(scan, id);
    at >= 0 && k >= 0 && !Matches(items[at].workItem, scan[k])
  }

  // ---- The parts of a pass fit together ---------------------------------------------------

  lemma {:induction false} WithoutMeans(items: seq<Item>, ids: seq<Id>)
    requires DistinctIds(items)
    ensures var left := WithoutIds(items, ids);
      && DistinctIds(left)
      && forall it :: it in left <==> it in items && it.id !in ids
  {
    if items != [] {
      var last := |items| - 1;
      assert items == items[..last] + [items[last]];
      WithoutMeans(items[..last], ids);
      var before := WithoutIds(items[..last], ids);
      forall m | 0 <= m < |before| ensures before[m].id != items[last].id {
        assert before[m] in items[..last];
      }
    }
  }

  lemma {:induction false} WithoutOneMore(items: seq<Item>, ids: seq<Id>, id: Id)
    ensures WithoutIds(WithoutIds(items, ids), [id]) == WithoutIds(items, ids + [id])
  {
    if items != [] {
      var last := |items| - 1;
      WithoutOneMore(items[..last], ids, id);
      var before := WithoutIds(items[..last], ids);
      if items[last].id !in ids {
        assert (before + [items[last]])[..|before|] == before;
      } else {
        assert before + [] == before;
      }
    }
  }

  lemma {:induction false} WithoutConcat(a: seq<Item>, b: seq<Item>, ids: seq<Id>)
    requires forall k :: 0 <= k < |b| ==> b[k].id !in ids
    ensures WithoutIds(a + b, ids) == WithoutIds(a, ids) + b
  {
    if b == [] {
      assert a + b == a;
    } else {
      var last := |b| - 1;
      assert (a + b)[..|a + b| - 1] == a + b[..last];
      WithoutConcat(a, b[..last], ids);
    }
  }

  lemma {:induction false} WithoutNothing(items: seq<Item>)
    ensures WithoutIds(items, []) == items
  {
    if items != [] {
      WithoutNothing(items[..|items| - 1]);
    }
  }

  lemma {:induction false} NewcomersUnique(items: seq<Item>, scan: seq<WorkItem>)
    requires UniqueScan(scan)
    ensures UniqueScan(Newcomers(items, scan))
  {
    if scan != [] {
      NewcomersUnique(items, scan[..|scan| - 1]);
    }
  }

  lemma NotTracked(items: seq<Item>, scan: seq<WorkItem>, k: nat)
    requires k < |Newcomers(items, scan)|
    ensures Newcomers(items, scan)[k] in scan && !HasId(items, Newcomers(items, scan)[k].id)
  {
    assert Newcomers(items, scan)[k] in Newcomers(items, scan);
  }

  /** Removal passes the new items by, and all ids stay distinct. */
  lemma NewcomersStay(items: seq<Item>, scan: seq<WorkItem>, now: int)
    requires DistinctIds(items) && UniqueScan(scan)
    ensures var added, removed := Added(Newcomers(items, scan), now), Removed(items, scan);
      && WithoutIds(items + added, removed) == WithoutIds(items, removed) + added
      && DistinctIds(WithoutIds(items, removed) + added)
  {
    var added, removed := Added(Newcomers(items, scan), now), Removed(items, scan);
    NewcomersUnique(items, scan);
    forall k | 0 <= k < |added| ensures !HasId(items, added[k].id) && added[k].id !in removed {
      NotTracked(items, scan, k);
    }
    WithoutConcat(items, added, removed);
    WithoutMeans(items, removed);
    var left := WithoutIds(items, removed);
    forall m, k | 0 <= m < |left| && 0 <= k < |added| ensures left[m].id != added[k].id {
      assert left[m] in items;
    }
  }

  lemma ScannedAtIndex(scan: seq<WorkItem>, i: nat)
    requires UniqueScan(scan) && i < |scan|
    ensures ScannedAt(scan, scan[i].id) == i
  {
    var k := ScannedAt(scan, scan[i].id);
    assert k >= 0 && scan[k].id == scan[i].id;
  }

  /** An edit is a refresh: for the items that stay, and (with nothing to do) for the new ones. */
  lemma EditsRefresh(items: seq<Item>, scan: seq<WorkItem>, now: int)
    requires DistinctIds(items) && UniqueScan(scan)
    ensures var left := WithoutIds(items, Removed(items, scan));
      forall m :: 0 <= m < |left| ==>
        Refreshed(left[m], scan) == if Differs(items, scan, left[m].id) then left[m].(workItem := scan[ScannedAt(scan, left[m].id)]) else left[m]
    ensures var added := Added(Newcomers(items, scan), now);
      forall k :: 0 <= k < |added| ==> !Differs(items, scan, added[k].id)
  {
    var left := WithoutIds(items, Removed(items, scan));
    WithoutMeans(items, Removed(items, scan));
    forall m | 0 <= m < |left| ensures Find(items, left[m].id) >= 0 && items[Find(items, left[m].id)] == left[m] {
      assert left[m] in items;
      var k :| 0 <= k < |items| && items[k] == left[m];
      FindUnique(items, k);
    }
    var added := Added(Newcomers(items, scan), now);
    forall k | 0 <= k < |added| ensures !Differs(items, scan, added[k].id) {
      NotTracked(items, scan, k);
    }
  }

  lemma EditedAreScanned(items: seq<Item>, scan: seq<WorkItem>)
    ensures forall id :: Differs(items, scan, id) ==> ScannedAt(scan, id) >= 0
  {
  }

  /** After the three loops the items are those of the specification. */
  lemma Assemble(items: seq<Item>, scan: seq<WorkItem>, now: int, edited: seq<Id>, left: seq<Item>, after: seq<Item>)
    requires DistinctIds(items) && UniqueScan(scan) && forall id :: id in edited <==> Differs(items, scan, id)
    requires left == WithoutIds(items, Removed(items, scan)) + Added(Newcomers(items, scan), now)
    requires |after| == |left| && forall id :: id in edited ==> ScannedAt(scan, id) >= 0
    requires forall m :: 0 <= m < |left| ==>
      after[m] == if left[m].id in edited then left[m].(workItem := scan[ScannedAt(scan, left[m].id)]) else left[m]
    ensures after == Reconciled(items, scan, now)
  {
    hide WithoutIds, Differs, Refreshed, DistinctIds, UniqueScan;
    EditsRefresh(items, scan, now);
  }

  /** With nothing new, nothing to remove and nothing to edit a pass keeps the items. */
  lemma NothingToDo(items: seq<Item>, scan: seq<WorkItem>, now: int)
    requires DistinctIds(items) && UniqueScan(scan)
    requires Newcomers(items, scan) == [] && Removed(items, scan) == [] && forall id :: !Differs(items, scan, id)
    ensures Reconciled(items, scan, now) == items
  {
    WithoutNothing(items);
    EditsRefresh(items, scan, now);
    assert RefreshedAll(items, scan) == items;
  }

  // ---- What a pass achieves ---------------------------------------------------------------

  /** An item after a pass is a kept one, refreshed, or a new one. */
  predicate ComesFrom(items: seq<Item>, scan: seq<WorkItem>, now: int, it: Item) {
    || (exists k :: 0 <= k < |items| && Kept(items[k], scan) && it == Refreshed(items[k], scan))
    || (exists i :: 0 <= i < |scan| && !HasId(items, scan[i].id) && it == NewItem(scan[i], now))
  }

  lemma PassUnique(items: seq<Item>, scan: seq<WorkItem>, now: int)
    requires DistinctIds(items) && UniqueScan(scan)
    ensures DistinctIds(Reconciled(items, scan, now))
  {
    NewcomersStay(items, scan, now);
    var left, added := WithoutIds(items, Removed(items, scan)), Added(Newcomers(items, scan), now);
    var after := Reconciled(items, scan, now);
    var before := left + added;
    assert forall m :: 0 <= m < |after| ==> after[m].id == before[m].id;
  }

  lemma PassOrigins(items: seq<Item>, scan: seq<WorkItem>, now: int)
    requires DistinctIds(items)
    ensures forall it :: it in Reconciled(items, scan, now) ==> ComesFrom(items, scan, now, it)
  {
    var removed, news := Removed(items, scan), Newcomers(items, scan);
    var left := WithoutIds(items, removed);
    WithoutMeans(items, removed);
    var after := Reconciled(items, scan, now);
    forall it | it in after ensures ComesFrom(items, scan, now, it) {
      var m :| 0 <= m < |after| && after[m] == it;
      if m < |left| {
        assert left[m] in left;
        var k :| 0 <= k < |items| && items[k] == left[m];
        KeptById(items, scan, items[k]);
      } else {
        NotTracked(items, scan, m - |left|);
        var i :| 0 <= i < |scan| && scan[i] == news[m - |left|];
      }
    }
  }

  lemma PassKeeps(items: seq<Item>, scan: seq<WorkItem>, now: int, k: nat)
    requires DistinctIds(items) && k < |items| && Kept(items[k], scan)
    ensures Refreshed(items[k], scan) in Reconciled(items, scan, now)
  {
    var left := WithoutIds(items, Removed(items, scan));
    WithoutMeans(items, Removed(items, scan));
    assert items[k] in items;
    KeptById(items, scan, items[k]);
    var m :| 0 <= m < |left| && left[m] == items[k];
    assert Reconciled(items, scan, now)[m] == Refreshed(items[k], scan);
  }

  lemma PassAdds(items: seq<Item>, scan: seq<WorkItem>, now: int, i: nat)
    requires i < |scan| && !HasId(items, scan[i].id)
    ensures NewItem(scan[i], now) in Reconciled(items, scan, now)
  {
    var news := Newcomers(items, scan);
    assert scan[i] in scan && scan[i] in news;
    var k :| 0 <= k < |news| && news[k] == scan[i];
    assert Reconciled(items, scan, now)[|WithoutIds(items, Removed(items, scan))| + k] == NewItem(scan[i], now);
  }

  lemma KeptById(items: seq<Item>, scan: seq<WorkItem>, it: Item)
    requires DistinctIds(items) && it in items
    ensures it.id in Removed(items, scan) <==> !Kept(it, scan)
  {
    var k :| 0 <= k < |items| && items[k] == it;
  }

  predicate InScan(scan: seq<WorkItem>, id: Id) {
    ScannedAt(scan, id) >= 0
  }

  /** The id is scanned, or tracked in a preserved state. */
  predicate Expected(items: seq<Item>, scan: seq<WorkItem>, id: Id) {
    InScan(scan, id) || (HasId(items, id) && Preserved(items[Find(items, id)].state))
  }

  /** The payload matches its file, and an item tracked before keeps everything but its payload. */
  predicate Converged(items: seq<Item>, scan: seq<WorkItem>, it: Item) {
    && (InScan(scan, it.id) ==> Matches(it.workItem, scan[ScannedAt(scan, it.id)]))
    && (HasId(items, it.id) ==> it == items[Find(items, it.id)].(workItem := it.workItem))
  }

  lemma OriginConverged(items: seq<Item>, scan: seq<WorkItem>, now: int, it: Item)
    requires DistinctIds(items) && UniqueScan(scan) && ComesFrom(items, scan, now, it)
    ensures Expected(items, scan, it.id) && Converged(items, scan, it)
  {
    if k :| 0 <= k < |items| && Kept(items[k], scan) && it == Refreshed(items[k], scan) {
      FindUnique(items, k);
    } else {
      var i :| 0 <= i < |scan| && !HasId(items, scan[i].id) && it == NewItem(scan[i], now);
      ScannedAtIndex(scan, i);
    }
  }

  /**
   * Main result: with unique scanned ids, one pass leaves exactly the scanned ids and those of
   * preserved items; every scanned item's payload matches its file, lists up to order; an item
   * that was tracked before keeps everything but its payload.
   */
  lemma PassConverges(items: seq<Item>, scan: seq<WorkItem>, now: int)
    requires DistinctIds(items) && UniqueScan(scan)
    ensures var after := Reconciled(items, scan, now);
      && DistinctIds(after)
      && (forall id :: HasId(after, id) <==> Expected(items, scan, id))
      && (forall it :: it in after ==> Converged(items, scan, it))
  {
    hide Reconciled, Matches, Refreshed;
    var after := Reconciled(items, scan, now);
    PassUnique(items, scan, now);
    PassOrigins(items, scan, now);
    forall it | it in after ensures Expected(items, scan, it.id) && Converged(items, scan, it) {
      OriginConverged(items, scan, now, it);
    }
    forall id ensures HasId(after, id) <==> Expected(items, scan, id) {
      if HasId(after, id) {
        assert after[Find(after, id)] in after;
      } else if HasId(items, id) && Expected(items, scan, id) {
        var k := Find(items, id);
        PassKeeps(items, scan, now, k);
        RefreshedId(items[k], scan);
      } else if InScan(scan, id) {
        PassAdds(items, scan, now, ScannedAt(scan, id));
      }
    }
  }

  /**
   * Main result: which tracked items survive the loss of their file. Exactly the terminal ones and
   * those past their merge, and these stay as they were.
   */
  lemma LossOfFile(items: seq<Item>, scan: seq<WorkItem>, now: int, k: nat)
    requires DistinctIds(items) && UniqueScan(scan) && k < |items| && forall i :: 0 <= i < |scan| ==> scan[i].id != items[k].id
    ensures var after, s := Reconciled(items, scan, now), items[k].state;
      var survives := s.Done? || s.Blocked? || s.Stuck? || s.Merged? || s.ForwardFixPending? || s.FixForwardFailed? || s.FixingForward?;
      && (survives ==> items[k] in after)
      && (!survives ==> forall m :: 0 <= m < |after| ==> after[m].id != items[k].id)
  {
    hide Reconciled;
    var after := Reconciled(items, scan, now);
    PassConverges(items, scan, now);
    FindUnique(items, k);
    if Kept(items[k], scan) {
      PassKeeps(items, scan, now, k);
    } else {
      assert !Expected(items, scan, items[k].id) && !HasId(after, items[k].id);
    }
  }

  /** The payloads differ in nothing the orchestrator goes by; lists are compared up to order. */
  predicate SamePayload(a: WorkItem, b: WorkItem) {
    && multiset(a.dependencies) == multiset(b.dependencies) && multiset(a.bundleWith) == multiset(b.bundleWith)
    && a.priority == b.priority && a.status == b.status && a.lineageToken == b.lineageToken
    && a.requiresManualReview == b.requiresManualReview && a.title == b.title && a.domain == b.domain
  }

  /** The item is queued with its payload, and nothing has happened to it. */
  predicate StartsOut(it: Item, w: WorkItem, now: int) {
    && it.id == w.id && it.workItem == w && it.state == Queued && it.lastTransition == now && it.retryCount == 0 && it.mergeFailCount == 0
    && it.session.workspace == NoWorkspace && it.session.pendingRetry == NoWorkspace && !it.session.parked && it.session.notAliveCount == 0
    && it.pr == PullRequest(Absent, [], Absent, Undefined)
    && it.ci.failCount == 0 && it.ci.failCountTotal == 0 && !it.ci.notified && !it.ci.needsFix
    && !it.review.completed && it.review.round == 0 && it.review.lastReviewed == Absent && it.review.lastApproved == Absent
    && !it.feedback.needsResponse && it.feedback.message == NoMessage && it.feedback.batch == NoBatch
    && it.rebase.attempts == 0 && !it.rebase.requested && it.repair.mergeCommit == Absent && it.repair.failCount == 0
  }

  /**
   * Main result: what a pass makes of every scanned file. A tracked item takes over the payload of its
   * file exactly when the two differ in something the orchestrator goes by, and keeps everything else; a
   * new file becomes an item that starts out.
   */
  lemma PassTakesOver(items: seq<Item>, scan: seq<WorkItem>, now: int, i: nat)
    requires DistinctIds(items) && UniqueScan(scan) && i < |scan|
    ensures var after := Reconciled(items, scan, now);
      && (forall k :: 0 <= k < |items| && items[k].id == scan[i].id ==>
            items[k].(workItem := if SamePayload(items[k].workItem, scan[i]) then items[k].workItem else scan[i]) in after)
      && ((forall k :: 0 <= k < |items| ==> items[k].id != scan[i].id) ==>
            exists m :: 0 <= m < |after| && StartsOut(after[m], scan[i], now))
  {
    hide Reconciled;
    ScannedAtIndex(scan, i);
    forall k | 0 <= k < |items| && items[k].id == scan[i].id
      ensures items[k].(workItem := if SamePayload(items[k].workItem, scan[i]) then items[k].workItem else scan[i])
           in Reconciled(items, scan, now)
    {
      PassKeeps(items, scan, now, k);
    }
    if forall k :: 0 <= k < |items| ==> items[k].id != scan[i].id {
      PassAdds(items, scan, now, i);
      var after := Reconciled(items, scan, now);
      var m :| 0 <= m < |after| && after[m] == NewItem(scan[i], now);
      assert StartsOut(after[m], scan[i], now);
    }
  }

  lemma RefreshedId(it: Item, scan: seq<WorkItem>)
    ensures Refreshed(it, scan).id == it.id
  {
  }

  lemma {:induction false} NoneNew(items: seq<Item>, scan: seq<WorkItem>)
    requires forall i :: 0 <= i < |scan| ==> HasId(items, scan[i].id)
    ensures Newcomers(items, scan) == []
  {
    if scan != [] {
      NoneNew(items, scan[..|scan| - 1]);
    }
  }

  lemma {:induction false} NoneRemoved(items: seq<Item>, scan: seq<WorkItem>)
    requires forall k :: 0 <= k < |items| ==> Kept(items[k], scan)
    ensures Removed(items, scan) == []
  {
    if items != [] {
      NoneRemoved(items[..|items| - 1], scan);
    }
  }

  /** Main result: a second pass over the same files changes nothing. */
  lemma SecondPassIsQuiet(items: seq<Item>, scan: seq<WorkItem>, now: int, later: int)
    requires DistinctIds(items) && UniqueScan(scan)
    ensures var after := Reconciled(items, scan, now);
      && DistinctIds(after)
      && Newcomers(after, scan) == [] && Removed(after, scan) == [] && (forall id :: !Differs(after, scan, id))
      && Reconciled(after, scan, later) == after
  {
    hide Reconciled, Matches;
    var after := Reconciled(items, scan, now);
    PassConverges(items, scan, now);
    forall i | 0 <= i < |scan| ensures HasId(after, scan[i].id) {
      ScannedAtIndex(scan, i);
      assert Expected(items, scan, scan[i].id);
    }
    NoneNew(after, scan);
    forall k | 0 <= k < |after| ensures Kept(after[k], scan) {
      assert after[k] in after && HasId(after, after[k].id) && Expected(items, scan, after[k].id);
    }
    NoneRemoved(after, scan);
    forall id | HasId(after, id) ensures !Differs(after, scan, id) {
      assert after[Find(after, id)] in after;
    }
    NothingToDo(after, scan, later);
  }
}
