/**
 * Whole broker runs: the grammar of every item's event log, progress, and the drain of a crew's
 * work in dependency order.
 */
module BrokerRuns {
  import opened Broker
  import opened BrokerFacts

  /** A run from the empty crew: the crew and the whole event log. */
  ghost function RunOps(opts: Options, ops: seq<Op>): (e: Effect)
    ensures Indexed(e.crew)
  {
    if ops == [] then Effect(EmptyCrew(), [])
    else
      var before := RunOps(opts, ops[..|ops| - 1]);
      StepFacts(opts, before.crew, ops[|ops| - 1]);
      var step := Apply(opts, before.crew, ops[|ops| - 1]);
      Effect(step.crew, before.events + step.events)
  }

  /** The log of a run tells how every item stands. */
  lemma {:induction false} LogTellsStanding(opts: Options, ops: seq<Op>, p: ItemId)
    ensures LiveAll(Unknown, RunOps(opts, ops).events, p) == StandingOf(RunOps(opts, ops).crew, p)
  {
    hide Apply, WellFormed;
    if ops != [] {
      var last := |ops| - 1;
      LogTellsStanding(opts, ops[..last], p);
      var before := RunOps(opts, ops[..last]);
      StepFacts(opts, before.crew, ops[last]);
      var step := Apply(opts, before.crew, ops[last]);
      LiveConcat(Unknown, before.events, step.events, p);
      assert LiveAll(StandingOf(before.crew, p), step.events, p) == StandingOf(step.crew, p);
    }
  }

  // ---- The grammar of a log ---------------------------------------------------------------

  predicate IsAbout(e: Event, p: ItemId) {
    !e.Disconnected? && !e.Reconnected? && e.item == p
  }

  /** The events about one item. */
  function About(log: seq<Event>, p: ItemId): (t: seq<Event>)
    ensures forall i :: 0 <= i < |t| ==> IsAbout(t[i], p)
  {
    if log == [] then [] else About(log[..|log| - 1], p) + (if IsAbout(log[|log| - 1], p) then [log[|log| - 1]] else [])
  }

  /** (claim by d, abandon by d)*, then nothing, a claim, a claim with its completion, or a reconcile completion. */
  predicate Episodes(t: seq<Event>) {
    || t == []
    || (|t| == 1 && (t[0].ReconcileCompleted? || t[0].Claimed?))
    || (|t| == 2 && t[0].Claimed? && (t[1].ReconcileCompleted? || t[1] == Completed(t[0].daemon, t[0].item)))
    || (|t| >= 2 && t[0].Claimed? && t[1] == Abandoned(t[0].daemon, t[0].item) && Episodes(t[2..]))
  }

  /** A prefix of: sync, episodes. */
  predicate InGrammar(t: seq<Event>) {
    t == [] || (t[0].Synced? && Episodes(t[1..]))
  }

  lemma {:induction false} LiveAbout(s: Standing, log: seq<Event>, p: ItemId)
    ensures LiveAll(s, About(log, p), p) == LiveAll(s, log, p)
  {
    if log != [] {
      var e := log[|log| - 1];
      LiveAbout(s, log[..|log| - 1], p);
      var before := About(log[..|log| - 1], p);
      if IsAbout(e, p) {
        LiveConcat(s, before, [e], p);
        LiveOne(LiveAll(s, before, p), e, p);
      } else {
        assert before + [] == before;
      }
    }
  }

  lemma {:induction false} DeadEnd(s: Standing, t: seq<Event>, p: ItemId)
    requires s.Broken? || s.Finished?
    requires t != [] && forall i :: 0 <= i < |t| ==> IsAbout(t[i], p)
    ensures LiveAll(s, t, p) == Broken
  {
    if |t| > 1 {
      DeadEnd(s, t[..|t| - 1], p);
    }
  }

  /** The head of a log first, then the rest. */
  lemma LiveHead(s: Standing, t: seq<Event>, p: ItemId)
    requires t != []
    ensures LiveAll(s, t, p) == LiveAll(Live(s, t[0], p), t[1..], p)
  {
    assert t == [t[0]] + t[1..];
    LiveConcat(s, [t[0]], t[1..], p);
    LiveOne(s, t[0], p);
  }

  lemma LiveNone(s: Standing, p: ItemId)
    ensures LiveAll(s, [], p) == s
  {
  }

  lemma {:induction false} EpisodesAccepted(t: seq<Event>, p: ItemId)
    requires forall i :: 0 <= i < |t| ==> IsAbout(t[i], p)
    ensures LiveAll(Free, t, p) != Broken <==> Episodes(t)
  {
    hide LiveAll;
    if t == [] {
      LiveNone(Free, p);
    } else {
      LiveHead(Free, t, p);
      var first := Live(Free, t[0], p);
      var rest := t[1..];
      if !first.Held? {
        if rest != [] {
          DeadEnd(first, rest, p);
        } else {
          LiveNone(first, p);
        }
      } else if rest == [] {
        LiveNone(first, p);
      } else {
        LiveHead(first, rest, p);
        var second := Live(first, rest[0], p);
        assert rest[1..] == t[2..] && rest[0] == t[1];
        if second.Free? {
          EpisodesAccepted(t[2..], p);
        } else if t[2..] != [] {
          DeadEnd(second, t[2..], p);
        } else {
          LiveNone(second, p);
        }
      }
    }
  }

  lemma GrammarAccepted(t: seq<Event>, p: ItemId)
    requires forall i :: 0 <= i < |t| ==> IsAbout(t[i], p)
    ensures LiveAll(Unknown, t, p) != Broken <==> InGrammar(t)
  {
    hide LiveAll;
    if t == [] {
      LiveNone(Unknown, p);
    } else {
      LiveHead(Unknown, t, p);
      if t[0].Synced? {
        EpisodesAccepted(t[1..], p);
      } else if t[1..] != [] {
        DeadEnd(Broken, t[1..], p);
      } else {
        LiveNone(Broken, p);
      }
    }
  }

  /**
   * Main result: in every broker run, with or without restarts, each item's log is a prefix of
   * sync, (claim by d, abandon by d)*, and then a claim by d with its completion by d, or an
   * optional claim followed by a reconcile completion.
   */
  lemma ClaimTraces(opts: Options, ops: seq<Op>, p: ItemId)
    ensures InGrammar(About(RunOps(opts, ops).events, p))
  {
    hide RunOps, LiveAll;
    var log := RunOps(opts, ops).events;
    LogTellsStanding(opts, ops, p);
    LiveAbout(Unknown, log, p);
    GrammarAccepted(About(log, p), p);
  }

  /** Between two claims of an item its first owner abandons it, and a finished item is never claimed. */
  lemma {:induction false} OneOwnerAtATime(log: seq<Event>, p: ItemId, i: nat, j: nat)
    requires i < j < |log| && log[j].Claimed? && log[j].item == p
    requires LiveAll(Unknown, log, p) != Broken
    ensures log[i].Claimed? && log[i].item == p ==> exists k :: i < k < j && log[k] == Abandoned(log[i].daemon, p)
    ensures log[i].Completed? || log[i].ReconcileCompleted? ==> log[i].item != p
  {
    hide LiveAll;
    PrefixNotBroken(log, j + 1, p);
    PrefixNotBroken(log, j, p);
    PrefixNotBroken(log, i + 1, p);
    PrefixNotBroken(log, i, p);
    LiveSnoc(log, i, p);
    LiveSnoc(log, j, p);
    if log[i].Claimed? && log[i].item == p && !exists k :: i < k < j && log[k] == Abandoned(log[i].daemon, p) {
      StillHeld(log, p, i, j, log[i].daemon);
    }
    if (log[i].Completed? || log[i].ReconcileCompleted?) && log[i].item == p {
      StillFinished(log, p, i, j);
    }
  }

  /**
   * Main result: in the log of every broker run, restarts included, the owner of an item abandons it
   * before the item is claimed again, and nothing finished is claimed.
   */
  lemma OneOwnerInRuns(opts: Options, ops: seq<Op>, p: ItemId, i: nat, j: nat)
    requires var log := RunOps(opts, ops).events; i < j < |log| && log[j].Claimed? && log[j].item == p
    ensures var log := RunOps(opts, ops).events;
      && (log[i].Claimed? && log[i].item == p ==> exists k :: i < k < j && log[k] == Abandoned(log[i].daemon, p))
      && (log[i].Completed? || log[i].ReconcileCompleted? ==> log[i].item != p)
  {
    hide RunOps, LiveAll;
    LogTellsStanding(opts, ops, p);
    OneOwnerAtATime(RunOps(opts, ops).events, p, i, j);
  }

  lemma LiveSnoc(log: seq<Event>, n: nat, p: ItemId)
    requires n < |log|
    ensures LiveAll(Unknown, log[..n + 1], p) == Live(LiveAll(Unknown, log[..n], p), log[n], p)
  {
    assert log[..n + 1][..n] == log[..n];
  }

  lemma {:induction false} PrefixNotBroken(log: seq<Event>, n: nat, p: ItemId)
    requires n <= |log| && LiveAll(Unknown, log, p) != Broken
    ensures LiveAll(Unknown, log[..n], p) != Broken
    decreases |log| - n
  {
    if n == |log| {
      assert log[..n] == log;
    } else {
      PrefixNotBroken(log, n + 1, p);
      LiveSnoc(log, n, p);
    }
  }

  lemma {:induction false} StillHeld(log: seq<Event>, p: ItemId, i: nat, j: nat, d: DaemonId)
    requires i < j <= |log| && LiveAll(Unknown, log[..i + 1], p) == Held(d)
    requires LiveAll(Unknown, log, p) != Broken
    requires forall k :: i < k < j ==> log[k] != Abandoned(d, p)
    ensures LiveAll(Unknown, log[..j], p) == Held(d) || LiveAll(Unknown, log[..j], p) == Finished
  {
    if j > i + 1 {
      StillHeld(log, p, i, j - 1, d);
      LiveSnoc(log, j - 1, p);
      PrefixNotBroken(log, j, p);
    }
  }

  lemma {:induction false} StillFinished(log: seq<Event>, p: ItemId, i: nat, j: nat)
    requires i < j <= |log| && LiveAll(Unknown, log[..i + 1], p) == Finished
    requires LiveAll(Unknown, log, p) != Broken
    ensures LiveAll(Unknown, log[..j], p) == Finished
  {
    if j > i + 1 {
      StillFinished(log, p, i, j - 1);
      LiveSnoc(log, j - 1, p);
      PrefixNotBroken(log, j, p);
    }
  }

  // ---- What a claim picks -----------------------------------------------------------------

  lemma ClaimsBeforeWeakOrder(operator: string, a: Entry, b: Entry, c: Entry)
    ensures !ClaimsBefore(operator, a, a)
    ensures ClaimsBefore(operator, a, b) && !ClaimsBefore(operator, c, b) ==> ClaimsBefore(operator, a, c)
    ensures ClaimsBefore(operator, a, b) ==> !ClaimsBefore(operator, b, a)
  {
    hide ByAuthor;
  }

  /** Position `b` of the order holds the pick: nothing available comes before it, and earlier items come after it. */
  predicate IsPick(crew: Crew, operator: string, order: seq<ItemId>, b: nat)
    requires forall p :: p in order ==> p in crew.items
  {
    && b < |order| && IsAvailable(crew, crew.items[order[b]])
    && forall i :: 0 <= i < |order| && IsAvailable(crew, crew.items[order[i]]) ==>
         && !ClaimsBefore(operator, crew.items[order[i]], crew.items[order[b]])
         && (i < b ==> ClaimsBefore(operator, crew.items[order[b]], crew.items[order[i]]))
  }

  lemma {:induction false} BestIsPick(crew: Crew, operator: string, order: seq<ItemId>) returns (b: nat)
    requires forall p :: p in order ==> p in crew.items
    ensures var best := Best(crew, operator, order);
      if best.Nothing? then forall i :: 0 <= i < |order| ==> !IsAvailable(crew, crew.items[order[i]])
      else IsPick(crew, operator, order, b) && order[b] == best.p
  {
    hide IsAvailable, ClaimsBefore;
    b := 0;
    if order != [] {
      var last := |order| - 1;
      var shorter := order[..last];
      var earlier := BestIsPick(crew, operator, shorter);
      var before := Best(crew, operator, shorter);
      var p := order[last];
      assert forall i :: 0 <= i < last ==> order[i] == shorter[i];
      if IsAvailable(crew, crew.items[p]) && (before.Nothing? || ClaimsBefore(operator, crew.items[p], crew.items[before.p])) {
        b := last;
        forall i | 0 <= i < |order| && IsAvailable(crew, crew.items[order[i]])
          ensures !ClaimsBefore(operator, crew.items[order[i]], crew.items[p])
               && (i < last ==> ClaimsBefore(operator, crew.items[p], crew.items[order[i]]))
        {
          if i == last {
            ClaimsBeforeWeakOrder(operator, crew.items[p], crew.items[p], crew.items[p]);
          } else {
            ClaimsBeforeWeakOrder(operator, crew.items[p], crew.items[before.p], crew.items[order[i]]);
            ClaimsBeforeWeakOrder(operator, crew.items[p], crew.items[order[i]], crew.items[p]);
          }
        }
      } else {
        b := earlier;
      }
    }
  }

  /** Main result: a claim grants the first item, in insertion order, that no available item comes before. */
  lemma ClaimPicksFirst(crew: Crew, d: DaemonId) returns (b: nat)
    requires WellFormed(crew) && d in crew.daemons
    ensures var g := Claim(crew, d);
      if g.choice.Nothing? then forall p :: p in crew.items ==> !IsAvailable(crew, crew.items[p])
      else IsPick(crew, crew.daemons[d].operator, crew.order, b) && crew.order[b] == g.choice.p
  {
    hide IsAvailable, Best, IsPick;
    b := BestIsPick(crew, crew.daemons[d].operator, crew.order);
  }

  // ---- Progress and drain -----------------------------------------------------------------

  /** A rank that every tracked dependency lowers: the dependencies are acyclic. */
  predicate Ranked(crew: Crew, rank: map<ItemId, nat>) {
    forall p, q :: p in crew.items && q in crew.items && q in crew.items[p].dependencies ==>
      p in rank && q in rank && rank[q] < rank[p]
  }

  ghost function Open(crew: Crew): set<ItemId> {
    set p | p in crew.items && crew.items[p].completedBy.NoOne?
  }

  predicate NothingClaimed(crew: Crew) {
    forall p :: p in crew.items ==> crew.items[p].claimedBy.NoOne?
  }

  ghost function Lower(rank: map<ItemId, nat>, some: set<ItemId>, top: ItemId): set<ItemId> {
    set x | x in some && x in rank && top in rank && rank[x] < rank[top]
  }

  lemma DependenciesAreLower(crew: Crew, rank: map<ItemId, nat>, some: set<ItemId>, top: ItemId, p: ItemId)
    requires Ranked(crew, rank) && some <= crew.items.Keys && p in crew.items
    requires p == top || p in Lower(rank, some, top)
    ensures forall x :: x in some && x in crew.items[p].dependencies ==> x in Lower(rank, some, top)
  {
  }

  /** Among some open items there is one whose tracked dependencies are not among them. */
  lemma {:induction false} LowestOf(crew: Crew, rank: map<ItemId, nat>, some: set<ItemId>) returns (p: ItemId)
    requires Ranked(crew, rank) && some != {} && some <= crew.items.Keys
    ensures p in some && forall q :: q in some ==> q !in crew.items[p].dependencies
    decreases some
  {
    hide Ranked;
    p :| p in some;
    var top := p;
    DependenciesAreLower(crew, rank, some, top, top);
    if Lower(rank, some, top) != {} {
      assert top !in Lower(rank, some, top);
      p := LowestOf(crew, rank, Lower(rank, some, top));
      DependenciesAreLower(crew, rank, some, top, p);
    }
  }

  /** Main result: with acyclic dependencies, something open and nothing claimed, any known daemon's claim is granted. */
  lemma Progress(crew: Crew, rank: map<ItemId, nat>, d: DaemonId)
    requires Indexed(crew) && Ranked(crew, rank) && d in crew.daemons
    requires Open(crew) != {} && NothingClaimed(crew)
    ensures Claim(crew, d).choice.Item?
  {
    var p := LowestOf(crew, rank, Open(crew));
    forall i | 0 <= i < |crew.items[p].dependencies| ensures DependencyMet(crew, crew.items[p].dependencies[i]) {
      assert crew.items[p].dependencies[i] in crew.items[p].dependencies;
    }
    assert IsAvailable(crew, crew.items[p]);
    var b := ClaimPicksFirst(crew, d);
  }

  /** Claim and complete, `n` times: the crew and the items in the order they were finished. */
  datatype Drained = Drained(crew: Crew, done: seq<ItemId>)

  ghost function Drain(crew: Crew, d: DaemonId, n: nat): (r: Drained)
    requires Indexed(crew)
    ensures Indexed(r.crew)
  {
    if n == 0 then Drained(crew, [])
    else
      var before := Drain(crew, d, n - 1);
      ClaimFacts(before.crew, d);
      var g := Claim(before.crew, d);
      if g.choice.Nothing? then before
      else
        CompleteFacts(g.crew, d, g.choice.p);
        Drained(Complete(g.crew, d, g.choice.p).crew, before.done + [g.choice.p])
  }

  /** One round finishes one available item and changes no other. */
  lemma RoundFacts(crew: Crew, d: DaemonId)
    requires Indexed(crew) && NothingClaimed(crew) && Claim(crew, d).choice.Item?
    ensures var p := Claim(crew, d).choice.p;
      var next := Complete(Claim(crew, d).crew, d, p).crew;
      && p in Open(crew) && d in next.daemons
      && next.items == crew.items[p := crew.items[p].(completedBy := By(d))]
  {
  }

  /** A tracked dependency of a finished item was completed before, or finished earlier. */
  ghost predicate InOrder(crew: Crew, done: seq<ItemId>) {
    forall i, q :: 0 <= i < |done| && OpenDependency(crew, done[i], q) ==> q in done[..i]
  }

  predicate OpenDependency(crew: Crew, p: ItemId, q: ItemId) {
    p in crew.items && q in crew.items[p].dependencies && q in crew.items && crew.items[q].completedBy.NoOne?
  }

  ghost function SetOf(s: seq<ItemId>): (r: set<ItemId>)
    ensures forall p :: p in r <==> p in s
  {
    if s == [] then {} else SetOf(s[..|s| - 1]) + {s[|s| - 1]}
  }

  /** The state of a drain of `crew` after `n` rounds. */
  ghost predicate DrainedTo(crew: Crew, d: DaemonId, n: nat, r: Drained) {
    && |r.done| == n && NoDuplicates(r.done) && SetOf(r.done) <= Open(crew)
    && Open(r.crew) == Open(crew) - SetOf(r.done)
    && NothingClaimed(r.crew) && d in r.crew.daemons && SameWork(crew, r.crew) && InOrder(crew, r.done)
  }

  lemma AppendOnce(s: seq<ItemId>, p: ItemId)
    requires NoDuplicates(s) && p !in s
    ensures NoDuplicates(s + [p]) && SetOf(s + [p]) == SetOf(s) + {p}
  {
    assert (s + [p])[..|s|] == s;
  }

  lemma DrainRound(crew: Crew, rank: map<ItemId, nat>, d: DaemonId, n: nat, before: Drained)
    requires Indexed(before.crew) && Ranked(crew, rank) && DrainedTo(crew, d, n, before) && n < |Open(crew)|
    ensures Claim(before.crew, d).choice.Item?
    ensures var p := Claim(before.crew, d).choice.p;
      DrainedTo(crew, d, n + 1, Drained(Complete(Claim(before.crew, d).crew, d, p).crew, before.done + [p]))
  {
    hide WellFormed, Claim, Complete, IsAvailable, InOrder, Ranked, NoDuplicates, SetOf;
    SizeOfSet(before.done);
    OpenLeft(Open(crew), SetOf(before.done));
    RankedStays(crew, before.crew, rank);
    Progress(before.crew, rank, d);
    RoundFacts(before.crew, d);
    ClaimIsAvailable(before.crew, d);
    var p := Claim(before.crew, d).choice.p;
    ExtendOrder(crew, before.crew, before.done, p);
    OpenAfter(before.crew, Complete(Claim(before.crew, d).crew, d, p).crew, d, p);
    AppendOnce(before.done, p);
  }

  lemma {:induction false} DrainFacts(crew: Crew, rank: map<ItemId, nat>, d: DaemonId, n: nat)
    requires Indexed(crew) && Ranked(crew, rank) && d in crew.daemons && NothingClaimed(crew) && n <= |Open(crew)|
    ensures DrainedTo(crew, d, n, Drain(crew, d, n))
  {
    hide Claim, Complete, Ranked, DrainedTo, Indexed, Drain, Open, NothingClaimed;
    if n == 0 {
      DrainStarts(crew, d);
    } else {
      DrainFacts(crew, rank, d, n - 1);
      DrainRound(crew, rank, d, n - 1, Drain(crew, d, n - 1));
      DrainNext(crew, d, n);
    }
  }

  lemma DrainStarts(crew: Crew, d: DaemonId)
    requires Indexed(crew) && d in crew.daemons && NothingClaimed(crew)
    ensures DrainedTo(crew, d, 0, Drain(crew, d, 0))
  {
    hide WellFormed;
  }

  lemma DrainNext(crew: Crew, d: DaemonId, n: nat)
    requires Indexed(crew) && n > 0
    ensures var before := Drain(crew, d, n - 1);
      var g := Claim(before.crew, d);
      g.choice.Item? ==> Drain(crew, d, n) == Drained(Complete(g.crew, d, g.choice.p).crew, before.done + [g.choice.p])
  {
    hide WellFormed, Claim, Complete;
  }

  lemma RankedStays(a: Crew, b: Crew, rank: map<ItemId, nat>)
    requires SameWork(a, b) && Ranked(a, rank)
    ensures Ranked(b, rank)
  {
  }

  lemma OpenAfter(crew: Crew, next: Crew, d: DaemonId, p: ItemId)
    requires p in crew.items && next.items == crew.items[p := crew.items[p].(completedBy := By(d))]
    ensures Open(next) == Open(crew) - {p} && SameWork(crew, next) && (NothingClaimed(crew) ==> NothingClaimed(next))
  {
  }

  /** The same items with the same dependencies. */
  predicate SameWork(a: Crew, b: Crew) {
    a.items.Keys == b.items.Keys && forall p :: p in a.items ==> a.items[p].dependencies == b.items[p].dependencies
  }

  lemma ClaimIsAvailable(crew: Crew, d: DaemonId)
    requires WellFormed(crew) && Claim(crew, d).choice.Item?
    ensures IsAvailable(crew, crew.items[Claim(crew, d).choice.p])
  {
  }

  lemma {:induction false} SizeOfSet(s: seq<ItemId>)
    requires NoDuplicates(s)
    ensures |SetOf(s)| == |s|
  {
    if s != [] {
      LastOnce(s);
      SizeOfSet(s[..|s| - 1]);
    }
  }

  lemma OpenLeft(open: set<ItemId>, done: set<ItemId>)
    requires done <= open && |done| < |open|
    ensures open - done != {}
  {
    assert open == done + (open - done);
  }

  lemma ExtendOrder(crew: Crew, now: Crew, done: seq<ItemId>, p: ItemId)
    requires SameWork(crew, now) && InOrder(crew, done) && p in now.items && IsAvailable(now, now.items[p])
    requires Open(now) == Open(crew) - SetOf(done)
    ensures InOrder(crew, done + [p])
  {
    var all := done + [p];
    forall i, q | 0 <= i < |all| && OpenDependency(crew, all[i], q) ensures q in all[..i]
    {
      if i == |done| {
        assert all[..i] == done;
        var k :| 0 <= k < |now.items[p].dependencies| && now.items[p].dependencies[k] == q;
        assert DependencyMet(now, q) && q in Open(crew) && q !in Open(now);
      } else {
        assert all[..i] == done[..i];
      }
    }
  }

  /**
   * Main result: alternating claim and complete finishes all n open items in exactly n rounds, each
   * item once and after its tracked dependencies, and the next claim is granted nothing.
   */
  lemma TopologicalDrain(crew: Crew, rank: map<ItemId, nat>, d: DaemonId)
    requires Indexed(crew) && Ranked(crew, rank) && d in crew.daemons && NothingClaimed(crew)
    ensures var n := |Open(crew)|;
      var r := Drain(crew, d, n);
      && Open(r.crew) == {} && |r.done| == n && NoDuplicates(r.done) && (forall p :: p in r.done <==> p in Open(crew))
      && InOrder(crew, r.done)
      && Claim(r.crew, d).choice.Nothing?
  {
    hide WellFormed, Claim, Drain, IsAvailable, InOrder, Ranked;
    var n := |Open(crew)|;
    DrainFacts(crew, rank, d, n);
    var r := Drain(crew, d, n);
    SizeOfSet(r.done);
    AllOf(Open(crew), SetOf(r.done));
    if Claim(r.crew, d).choice.Item? {
      RoundFacts(r.crew, d);
    }
  }

  lemma AllOf(whole: set<ItemId>, part: set<ItemId>)
    requires part <= whole && |part| == |whole|
    ensures part == whole
  {
    assert |whole - part| == |whole| - |part|;
  }
}
