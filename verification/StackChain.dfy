/**
 * The chain of stacked pull requests around an item: `buildStackChain` (core/orchestrator.ts) walks
 * up the base branches to the root and down again to the tip, over possibly cyclic links.
 */
module StackChain {
  import opened OrchestratorTypes
  import opened Poll
  import opened PollFacts
  import opened Claims

  /** The tracked item the branch of item `k` is based on, or -1. */
  function Parent(items: seq<Item>, k: nat): (p: int)
    requires k < |items|
    ensures -1 <= p < |items|
  {
    if items[k].pr.baseBranch.Ref? then Find(items, items[k].pr.baseBranch.n) else -1
  }

  /** The n-th ancestor of item `k`, or -1 past the root. */
  function Ancestor(items: seq<Item>, k: nat, n: nat): (p: int)
    requires k < |items|
    ensures -1 <= p < |items|
  {
    if n == 0 then k
    else
      var p := Ancestor(items, k, n - 1);
      if p < 0 then -1 else Parent(items, p)
  }

  /** Following the base branches from item `k` ends at a root. */
  ghost predicate Rooted(items: seq<Item>, k: nat)
    requires k < |items|
  {
    exists n: nat :: Ancestor(items, k, n) < 0
  }

  /** No two items are based on the same tracked branch. */
  predicate OneChildEach(items: seq<Item>) {
    forall a, b :: 0 <= a < |items| && 0 <= b < |items| && Parent(items, a) >= 0 && Parent(items, a) == Parent(items, b) ==> a == b
  }

  predicate IsChild(items: seq<Item>, k: nat, parent: nat)
    requires k < |items| && parent < |items|
  {
    items[k].pr.baseBranch == Ref(items[parent].id)
  }

  /** Distinct items, each based on the one before it. */
  predicate IsChain(items: seq<Item>, chain: seq<nat>) {
    && (forall j :: 0 <= j < |chain| ==> chain[j] < |items|)
    && (forall i, j :: 0 <= i < j < |chain| ==> chain[i] != chain[j])
    && (forall j :: 0 < j < |chain| ==> IsChild(items, chain[j], chain[j - 1]))
  }

  /** The chain cannot grow. */
  predicate Maximal(items: seq<Item>, chain: seq<nat>)
    requires IsChain(items, chain) && chain != []
  {
    forall c: nat :: c < |items| && IsChild(items, c, chain[|chain| - 1]) ==> c in chain
  }

  lemma ChildIsByParent(items: seq<Item>, k: nat, parent: nat)
    requires DistinctIds(items) && k < |items| && parent < |items|
    ensures IsChild(items, k, parent) <==> Parent(items, k) == parent
  {
    FindUnique(items, parent);
  }

  /** Ancestors of ancestors. */
  lemma {:induction false} AncestorOf(items: seq<Item>, k: nat, m: nat, n: nat)
    requires k < |items| && Ancestor(items, k, m) >= 0
    ensures Ancestor(items, k, m + n) == Ancestor(items, Ancestor(items, k, m), n)
  {
    if n > 0 {
      AncestorOf(items, k, m, n - 1);
    }
  }

  lemma {:induction false} PastTheRoot(items: seq<Item>, k: nat, m: nat, n: nat)
    requires k < |items| && m <= n && Ancestor(items, k, m) < 0
    ensures Ancestor(items, k, n) < 0
  {
    if m < n {
      PastTheRoot(items, k, m, n - 1);
    }
  }

  /** A repeated ancestor is a cycle, and a cycle has no root. */
  lemma {:induction false} NoRepetition(items: seq<Item>, k: nat, m: nat, n: nat, depth: nat)
    requires k < |items| && m < n && Ancestor(items, k, m) >= 0 && Ancestor(items, k, depth) < 0
    ensures Ancestor(items, k, m) != Ancestor(items, k, n)
    decreases depth - m
  {
    if depth <= m {
      PastTheRoot(items, k, depth, m);
    } else if Ancestor(items, k, m) == Ancestor(items, k, n) {
      assert Ancestor(items, k, m + 1) == Ancestor(items, k, n + 1);
      if Ancestor(items, k, m + 1) < 0 {
        PastTheRoot(items, k, m + 1, n);
      } else {
        NoRepetition(items, k, m + 1, n + 1, depth);
      }
    }
  }

  /** Item `j` is item `k` or one of its first `up` ancestors. */
  ghost predicate Passed(items: seq<Item>, k: nat, up: nat, j: nat)
    requires k < |items|
  {
    exists n :: 0 <= n <= up && Ancestor(items, k, n) == j
  }

  /** A walk up that comes back to an item it passed has no root above it. */
  lemma NoRootAbove(items: seq<Item>, k: nat, up: nat, dep: nat)
    requires k < |items| && Passed(items, k, up, dep) && Ancestor(items, k, up + 1) == dep
    ensures !Rooted(items, k)
  {
    if depth: nat :| Ancestor(items, k, depth) < 0 {
      var n :| 0 <= n <= up && Ancestor(items, k, n) == dep;
      NoRepetition(items, k, n, up + 1, depth);
    }
  }

  /** The numbers below `n`. */
  ghost function Below(n: nat): (s: set<nat>)
    ensures forall j: nat :: j in s <==> j < n
  {
    if n == 0 then {} else Below(n - 1) + {n - 1}
  }

  /** The loop up: a root of item `k`, unless the links are cyclic. */
  method WalkUp(items: seq<Item>, k: nat) returns (root: nat, ghost up: nat)
    requires k < |items| && DistinctIds(items)
    ensures root < |items| && Ancestor(items, k, up) == root
    ensures Rooted(items, k) ==> Parent(items, root) < 0
  {
    root, up := k, 0;
    var visited: set<nat> := {k};
    ghost var left := Below(|items|) - visited;
    while items[root].pr.baseBranch.Ref?
      invariant root < |items| && Ancestor(items, k, up) == root
      invariant forall j :: j in visited ==> j < |items| && Passed(items, k, up, j)
      invariant k in visited && root in visited
      invariant left == Below(|items|) - visited
      decreases left
    {
      var dep := Find(items, items[root].pr.baseBranch.n);
      if dep < 0 || dep in visited {
        if dep >= 0 {
          NoRootAbove(items, k, up, dep);
        }
        return;
      }
      assert dep in left && Ancestor(items, k, up + 1) == dep;
      visited := visited + {dep};
      left := left - {dep};
      root, up := dep, up + 1;
    }
  }

  /** The first child of `parent` in insertion order that is not visited, or -1. */
  function FirstChild(items: seq<Item>, parent: nat, visited: set<nat>, i: nat): (c: int)
    requires parent < |items| && i <= |items|
    ensures c == -1 || (i <= c < |items| && IsChild(items, c, parent) && c !in visited)
    ensures c == -1 ==> forall k :: i <= k < |items| && IsChild(items, k, parent) ==> k in visited
    ensures c >= 0 ==> forall k :: i <= k < c && IsChild(items, k, parent) ==> k in visited
    decreases |items| - i
  {
    if i == |items| then -1
    else if IsChild(items, i, parent) && i !in visited then i
    else FirstChild(items, parent, visited, i + 1)
  }

  /** The loop down: a chain from `root` that no unvisited child extends. */
  method WalkDown(items: seq<Item>, root: nat) returns (chain: seq<nat>)
    requires root < |items|
    ensures chain != [] && chain[0] == root && IsChain(items, chain) && Maximal(items, chain)
  {
    chain := [root];
    var current, visited := root, {root};
    ghost var left := Below(|items|) - visited;
    while true
      invariant chain != [] && chain[0] == root && chain[|chain| - 1] == current && IsChain(items, chain)
      invariant forall j :: j in visited <==> j in chain
      invariant left == Below(|items|) - visited
      decreases left
    {
      var child := FirstChild(items, current, visited, 0);
      if child < 0 {
        return;
      }
      assert child in left;
      left := left - {child};
      visited := visited + {child};
      chain := chain + [child];
      current := child;
    }
  }

  /** POST_MERGE_STATES. */
  predicate PostMerge(s: State) {
    s.Done? || s.Merged? || s.ForwardFixPending? || s.FixForwardFailed? || s.FixingForward?
  }

  datatype Entry = Entry(id: Id, pr: nat, title: string)

  /** The entries of the items that are active and have a pull request, in order. */
  function Entries(items: seq<Item>, chain: seq<nat>): seq<Entry>
    requires forall j :: 0 <= j < |chain| ==> chain[j] < |items|
  {
    if chain == [] then []
    else
      var last := |chain| - 1;
      Entries(items, chain[..last]) + EntryOf(items[chain[last]])
  }

  function EntryOf(it: Item): seq<Entry> {
    if it.pr.number.Ref? && !PostMerge(it.state) then [Entry(it.id, it.pr.number.n, it.workItem.title)] else []
  }

  /** The item's pull request is open: it has one, and it has not merged. */
  predicate OpenPr(it: Item) {
    && it.pr.number.Ref?
    && !it.state.Merged? && !it.state.ForwardFixPending? && !it.state.FixForwardFailed? && !it.state.FixingForward? && !it.state.Done?
  }

  /** The entry tells of the item's own pull request. */
  predicate Tells(it: Item, e: Entry) {
    OpenPr(it) && e.id == it.id && Ref(e.pr) == it.pr.number && e.title == it.workItem.title
  }

  /** Two entries in the order of the chain. */
  predicate InOrder(items: seq<Item>, chain: seq<nat>, a: Entry, b: Entry)
    requires forall j :: 0 <= j < |chain| ==> chain[j] < |items|
  {
    exists i, j :: 0 <= i < j < |chain| && Tells(items[chain[i]], a) && Tells(items[chain[j]], b)
  }

  /** The entry tells of an item of the chain. */
  predicate ToldIn(items: seq<Item>, chain: seq<nat>, e: Entry)
    requires forall j :: 0 <= j < |chain| ==> chain[j] < |items|
  {
    exists j :: 0 <= j < |chain| && Tells(items[chain[j]], e)
  }

  /** The item's open pull request is listed. */
  predicate Listed(it: Item, entries: seq<Entry>) {
    OpenPr(it) ==> exists m :: 0 <= m < |entries| && Tells(it, entries[m])
  }

  /** The open pull requests of the chain are listed, and nothing else, in the order of the chain. */
  predicate ListsOpen(items: seq<Item>, chain: seq<nat>, entries: seq<Entry>)
    requires forall j :: 0 <= j < |chain| ==> chain[j] < |items|
  {
    && (forall j :: 0 <= j < |chain| ==> Listed(items[chain[j]], entries))
    && (forall m :: 0 <= m < |entries| ==> ToldIn(items, chain, entries[m]))
    && (forall m, n :: 0 <= m < n < |entries| ==> InOrder(items, chain, entries[m], entries[n]))
  }

  lemma {:induction false} EntriesListOpen(items: seq<Item>, chain: seq<nat>)
    requires forall j :: 0 <= j < |chain| ==> chain[j] < |items|
    ensures ListsOpen(items, chain, Entries(items, chain))
  {
    if chain != [] {
      hide ListsOpen;
      var last := |chain| - 1;
      EntriesListOpen(items, chain[..last]);
      EntriesMore(items, chain[..last], chain[last], Entries(items, chain[..last]));
      assert chain[..last] + [chain[last]] == chain;
    }
  }

  lemma EntryTells(it: Item)
    ensures OpenPr(it) ==> |EntryOf(it)| == 1 && Tells(it, EntryOf(it)[0])
    ensures !OpenPr(it) ==> EntryOf(it) == []
  {
  }

  lemma EntriesMore(items: seq<Item>, chain: seq<nat>, next: nat, entries: seq<Entry>)
    requires (forall j :: 0 <= j < |chain| ==> chain[j] < |items|) && next < |items| && ListsOpen(items, chain, entries)
    ensures ListsOpen(items, chain + [next], entries + EntryOf(items[next]))
  {
    hide OpenPr, Tells, EntryOf, InOrder, ToldIn, Listed;
    var longer, more := chain + [next], entries + EntryOf(items[next]);
    EntryTells(items[next]);
    forall j | 0 <= j < |longer| ensures Listed(items[longer[j]], more) {
      if j < |chain| {
        ListedStays(items[chain[j]], entries, EntryOf(items[next]));
      } else {
        ListedLast(items[next], entries);
      }
    }
    forall m | 0 <= m < |more| ensures ToldIn(items, longer, more[m]) {
      if m < |entries| {
        ToldStays(items, chain, next, entries[m]);
      } else {
        ToldLast(items, chain, next, more[m]);
      }
    }
    forall m, n | 0 <= m < n < |more| ensures InOrder(items, longer, more[m], more[n]) {
      if n < |entries| {
        OrderStays(items, chain, next, entries[m], entries[n]);
      } else {
        OrderLast(items, chain, next, entries[m], more[n]);
      }
    }
  }

  lemma ListedStays(it: Item, entries: seq<Entry>, more: seq<Entry>)
    requires Listed(it, entries)
    ensures Listed(it, entries + more)
  {
    hide Tells, OpenPr;
    if OpenPr(it) {
      var m :| 0 <= m < |entries| && Tells(it, entries[m]);
      assert (entries + more)[m] == entries[m];
    }
  }

  lemma ListedLast(it: Item, entries: seq<Entry>)
    ensures Listed(it, entries + EntryOf(it))
  {
    hide Tells, OpenPr, EntryOf;
    EntryTells(it);
    if OpenPr(it) {
      assert (entries + EntryOf(it))[|entries|] == EntryOf(it)[0];
    }
  }

  lemma ToldStays(items: seq<Item>, chain: seq<nat>, next: nat, e: Entry)
    requires (forall j :: 0 <= j < |chain| ==> chain[j] < |items|) && next < |items| && ToldIn(items, chain, e)
    ensures ToldIn(items, chain + [next], e)
  {
    hide Tells;
    var j :| 0 <= j < |chain| && Tells(items[chain[j]], e);
    assert (chain + [next])[j] == chain[j];
  }

  lemma ToldLast(items: seq<Item>, chain: seq<nat>, next: nat, e: Entry)
    requires (forall j :: 0 <= j < |chain| ==> chain[j] < |items|) && next < |items| && Tells(items[next], e)
    ensures ToldIn(items, chain + [next], e)
  {
    hide Tells;
    assert (chain + [next])[|chain|] == next;
  }

  lemma OrderStays(items: seq<Item>, chain: seq<nat>, next: nat, a: Entry, b: Entry)
    requires (forall j :: 0 <= j < |chain| ==> chain[j] < |items|) && next < |items| && InOrder(items, chain, a, b)
    ensures InOrder(items, chain + [next], a, b)
  {
    hide Tells;
    var i, j :| 0 <= i < j < |chain| && Tells(items[chain[i]], a) && Tells(items[chain[j]], b);
    assert (chain + [next])[i] == chain[i] && (chain + [next])[j] == chain[j];
  }

  lemma OrderLast(items: seq<Item>, chain: seq<nat>, next: nat, a: Entry, b: Entry)
    requires (forall j :: 0 <= j < |chain| ==> chain[j] < |items|) && next < |items|
    requires ToldIn(items, chain, a) && Tells(items[next], b)
    ensures InOrder(items, chain + [next], a, b)
  {
    hide Tells;
    var i :| 0 <= i < |chain| && Tells(items[chain[i]], a);
    assert (chain + [next])[i] == chain[i] && (chain + [next])[|chain|] == next;
  }

  /** The chain is the whole path from its root to its tip. */
  predicate RootToTip(items: seq<Item>, chain: seq<nat>) {
    && IsChain(items, chain) && chain != []
    && Parent(items, chain[0]) < 0
    && forall c :: 0 <= c < |items| ==> Parent(items, c) != chain[|chain| - 1]
  }

  /** A child of an element is the next element. */
  lemma NextInChain(items: seq<Item>, chain: seq<nat>, j: nat, c: nat)
    requires DistinctIds(items) && OneChildEach(items) && IsChain(items, chain) && 0 < j <= |chain| && Maximal(items, chain)
    requires c < |items| && Parent(items, chain[0]) < 0 && Parent(items, c) == chain[j - 1]
    ensures j < |chain| && chain[j] == c
  {
    ChildIsByParent(items, c, chain[j - 1]);
    if j < |chain| {
      ChildIsByParent(items, chain[j], chain[j - 1]);
    } else {
      NoChildAtTip(items, chain, c);
    }
  }

  /** The down walk passes every item on the way from `k` up to the root. */
  lemma {:induction false} PassesThrough(items: seq<Item>, k: nat, up: nat, chain: seq<nat>, j: nat)
    requires DistinctIds(items) && OneChildEach(items) && k < |items| && IsChain(items, chain) && chain != []
    requires Ancestor(items, k, up) == chain[0] && Parent(items, chain[0]) < 0 && j <= up && Maximal(items, chain)
    ensures j < |chain| && Ancestor(items, k, up - j) == chain[j]
  {
    hide Maximal, IsChain, OneChildEach;
    if j > 0 {
      PassesThrough(items, k, up, chain, j - 1);
      var c := Ancestor(items, k, up - j);
      if c < 0 {
        PastTheRoot(items, k, up - j, up);
      }
      assert Ancestor(items, k, up - j + 1) == Parent(items, c);
      NextInChain(items, chain, j, c);
    }
  }

  /** The tip of a maximal chain from a root has no child at all. */
  lemma NoChildAtTip(items: seq<Item>, chain: seq<nat>, c: nat)
    requires DistinctIds(items) && IsChain(items, chain) && chain != [] && c < |items|
    requires Parent(items, chain[0]) < 0 && Maximal(items, chain)
    ensures Parent(items, c) != chain[|chain| - 1]
  {
    var tip := chain[|chain| - 1];
    ChildIsByParent(items, c, tip);
    if Parent(items, c) == tip {
      assert IsChild(items, c, chain[|chain| - 1]) && c in chain;
      var m :| 0 <= m < |chain| && chain[m] == c;
      if m > 0 {
        ChildIsByParent(items, c, chain[m - 1]);
      }
    }
  }

  /**
   * Main result: buildStackChain terminates on any links, even cyclic ones, with distinct items
   * each based on the one before, and lists exactly their open pull requests. When the links above the item end at a root and no branch
   * has two children, the chain is the whole path from the root to the tip and holds the item.
   */
  method BuildStackChain(items: seq<Item>, id: Id) returns (chain: seq<nat>, entries: seq<Entry>)
    requires DistinctIds(items)
    ensures Find(items, id) < 0 ==> chain == [] && entries == []
    ensures IsChain(items, chain) && entries == Entries(items, chain) && ListsOpen(items, chain, entries)
    ensures Find(items, id) >= 0 && Rooted(items, Find(items, id)) ==> chain != [] && Parent(items, chain[0]) < 0
    ensures Find(items, id) >= 0 && Rooted(items, Find(items, id)) && OneChildEach(items) ==>
      RootToTip(items, chain) && (Find(items, id) as nat) in chain
  {
    chain, entries := [], [];
    var k := Find(items, id);
    if k < 0 {
      return;
    }
    var root, up := WalkUp(items, k);
    chain := WalkDown(items, root);
    if Parent(items, root) < 0 && OneChildEach(items) {
      PassesThrough(items, k, up, chain, up);
      forall c | 0 <= c < |items| ensures Parent(items, c) != chain[|chain| - 1] {
        NoChildAtTip(items, chain, c);
      }
    }
    entries := CollectEntries(items, chain);
    EntriesListOpen(items, chain);
  }

  /** The filter and map at the end of buildStackChain. */
  method CollectEntries(items: seq<Item>, chain: seq<nat>) returns (entries: seq<Entry>)
    requires forall j :: 0 <= j < |chain| ==> chain[j] < |items|
    ensures entries == Entries(items, chain)
  {
    entries := [];
    var i := 0;
    while i < |chain|
      invariant 0 <= i <= |chain| && entries == Entries(items, chain[..i])
    {
      var it := items[chain[i]];
      if it.pr.number.Ref? && !PostMerge(it.state) {
        entries := entries + [Entry(it.id, it.pr.number.n, it.workItem.title)];
      }
      i := i + 1;
      assert chain[..i][..i - 1] == chain[..i - 1];
    }
    assert chain[..|chain|] == chain;
  }
}
