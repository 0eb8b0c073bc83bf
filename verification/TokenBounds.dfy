/** Bounds over whole runs of the token bucket, with any interleaving of callers (core/request-queue.ts). */
module TokenBounds {
  import opened TokenBucket

  /** One atomic step: a caller's turn, a look at the bucket, or a reported budget. */
  datatype Step = Turn(now: int) | Look(now: int) | Report(remaining: int, resetAtMs: int, now: int)

  datatype Outcome = Outcome(bucket: Bucket, grants: nat, reports: nat)

  function Do(l: Limits, b: Bucket, s: Step): Bucket {
    match s
    case Turn(now) => Attempt(l, b, now)
    case Look(now) => Refilled(l, b, now)
    case Report(remaining, resetAtMs, now) => Budgeted(l, b, remaining, resetAtMs, now)
  }

  function DoAll(l: Limits, b: Bucket, steps: seq<Step>): Outcome {
    if steps == [] then Outcome(b, 0, 0)
    else
      var before := DoAll(l, b, steps[..|steps| - 1]);
      var s := steps[|steps| - 1];
      Outcome(Do(l, before.bucket, s),
              before.grants + (if s.Turn? && Grants(l, before.bucket, s.now) then 1 else 0),
              before.reports + (if s.Report? then 1 else 0))
  }

  /** The clock of the steps does not run backwards from `from`. */
  predicate Monotone(from: int, steps: seq<Step>) {
    && (forall i :: 0 <= i < |steps| ==> from <= steps[i].now)
    && (forall i, j :: 0 <= i < j < |steps| ==> steps[i].now <= steps[j].now)
  }

  function LastTime(from: int, steps: seq<Step>): int {
    if steps == [] then from else steps[|steps| - 1].now
  }

  /** The bucket stays within 0 and its burst, whatever the clock does. */
  lemma {:induction false} StaysValid(l: Limits, b: Bucket, steps: seq<Step>)
    requires Valid(l, b) && l.rate >= 0.0 && l.burst >= 0.0
    ensures Valid(l, DoAll(l, b, steps).bucket)
  {
    if steps != [] {
      StaysValid(l, b, steps[..|steps| - 1]);
      RefilledValid(l, DoAll(l, b, steps[..|steps| - 1]).bucket, steps[|steps| - 1].now);
    }
  }

  // ---- Grants in a window -----------------------------------------------------------------

  /** The tokens a refill at `now` could leave. */
  function Potential(l: Limits, b: Bucket, now: int): real {
    Min(l.burst, b.tokens + Earned(l, now - b.lastRefillMs))
  }

  lemma PotentialGrows(l: Limits, b: Bucket, from: int, to: int)
    requires l.rate >= 0.0 && from <= to
    ensures Potential(l, b, to) <= Potential(l, b, from) + Earned(l, to - from)
  {
    EarnedAdds(l, from - b.lastRefillMs, to - from);
    EarnedNatural(l, to - from);
  }

  /** A step pays for what it grants out of the potential; a report adds at most one burst. */
  lemma StepPays(l: Limits, b: Bucket, s: Step)
    requires Valid(l, b) && l.rate >= 0.0 && l.burst >= 0.0 && b.lastRefillMs <= s.now
    ensures var next := Do(l, b, s);
      && next.lastRefillMs == s.now
      && Potential(l, next, s.now) + (if s.Turn? && Grants(l, b, s.now) then 1.0 else 0.0)
         <= Potential(l, b, s.now) + (if s.Report? then l.burst else 0.0)
      && 0.0 <= Potential(l, next, s.now)
  {
    RefilledValid(l, b, s.now);
    EarnedNatural(l, s.now - b.lastRefillMs);
    assert Earned(l, 0) == 0.0;
  }

  lemma OneMoreReport(k: nat, burst: real)
    ensures (k + 1) as real * burst == k as real * burst + burst
  {
  }

  /** Grants and potential, less what the reports and the time since `from` paid for. */
  function Balance(l: Limits, o: Outcome, from: int, now: int): real {
    o.grants as real + Potential(l, o.bucket, now) - o.reports as real * l.burst - Earned(l, now - from)
  }

  /** No step raises the balance. */
  lemma BalanceFalls(l: Limits, o: Outcome, next: Outcome, s: Step, from: int, at: int)
    requires Valid(l, o.bucket) && l.rate >= 0.0 && l.burst >= 0.0 && o.bucket.lastRefillMs <= at <= s.now
    requires next == Outcome(Do(l, o.bucket, s), o.grants + (if s.Turn? && Grants(l, o.bucket, s.now) then 1 else 0),
                             o.reports + (if s.Report? then 1 else 0))
    ensures Balance(l, next, from, s.now) <= Balance(l, o, from, at)
  {
    hide Earned, Potential, Do, Grants, Valid;
    PotentialGrows(l, o.bucket, at, s.now);
    StepPays(l, o.bucket, s);
    EarnedAdds(l, at - from, s.now - at);
    OneMoreReport(o.reports, l.burst);
  }

  lemma {:induction false} WindowPays(l: Limits, b: Bucket, from: int, steps: seq<Step>)
    requires Valid(l, b) && l.rate >= 0.0 && l.burst >= 0.0 && b.lastRefillMs <= from && Monotone(from, steps)
    ensures var o, to := DoAll(l, b, steps), LastTime(from, steps);
      && Valid(l, o.bucket) && o.bucket.lastRefillMs <= to && from <= to
      && Balance(l, o, from, to) <= Potential(l, b, from)
  {
    hide Potential, Do, Grants, Valid;
    if steps == [] {
      assert Earned(l, 0) == 0.0;
    } else {
      hide Balance, Earned;
      var last := |steps| - 1;
      var s := steps[last];
      WindowPays(l, b, from, steps[..last]);
      StaysValid(l, b, steps);
      var before, at := DoAll(l, b, steps[..last]), LastTime(from, steps[..last]);
      assert at <= s.now;
      StepPays(l, before.bucket, s);
      BalanceFalls(l, before, DoAll(l, b, steps), s, from, at);
    }
  }

  /**
   * Main result: in any window of (to - from) milliseconds with k budget reports, at most
   * burst (1 + k) + rate (to - from) / 1000 requests are granted.
   */
  lemma WindowBound(l: Limits, b: Bucket, from: int, steps: seq<Step>, to: int)
    requires Valid(l, b) && l.rate >= 0.0 && l.burst >= 0.0 && b.lastRefillMs <= from && Monotone(from, steps)
    requires LastTime(from, steps) <= to
    ensures var o := DoAll(l, b, steps);
      o.grants as real <= (o.reports + 1) as real * l.burst + Earned(l, to - from)
  {
    hide Earned, DoAll, Monotone;
    WindowPays(l, b, from, steps);
    var o, end := DoAll(l, b, steps), LastTime(from, steps);
    EarnedAdds(l, end - from, to - end);
    EarnedNatural(l, to - end);
    EarnedNatural(l, end - o.bucket.lastRefillMs);
    assert Potential(l, o.bucket, end) >= 0.0 && Potential(l, b, from) <= l.burst;
    OneMoreReport(o.reports, l.burst);
    assert Balance(l, o, from, end) <= l.burst;
    assert o.grants as real <= l.burst + o.reports as real * l.burst + Earned(l, end - from);
    assert Earned(l, to - from) == Earned(l, end - from) + Earned(l, to - end);
  }

  // ---- A reported budget ------------------------------------------------------------------

  /** The turns come at strictly later times than the turns before them. */
  predicate TurnsAdvance(steps: seq<Step>) {
    forall i, j :: 0 <= i < j < |steps| && steps[i].Turn? && steps[j].Turn? ==> steps[i].now < steps[j].now
  }

  function LastTurn(from: int, steps: seq<Step>): int {
    if steps == [] then from
    else if steps[|steps| - 1].Turn? then steps[|steps| - 1].now
    else LastTurn(from, steps[..|steps| - 1])
  }

  lemma {:induction false} LastTurnIs(from: int, steps: seq<Step>, now: int)
    requires forall i :: 0 <= i < |steps| ==> steps[i].now <= now
    requires forall i :: 0 <= i < |steps| && steps[i].Turn? ==> steps[i].now < now
    requires from <= now
    ensures LastTurn(from, steps) <= now && (from < now ==> LastTurn(from, steps) < now)
  {
    if steps != [] {
      LastTurnIs(from, steps[..|steps| - 1], now);
    }
  }

  /** The budget has counted the grants down; used up, it leaves tokens only in the tick of the last turn. */
  predicate CountedDown(o: Outcome, remaining: nat, resetAtMs: int, at: int, lastTurn: int) {
    && o.grants <= remaining
    && o.bucket.budget == Budget(remaining - o.grants, resetAtMs)
    && o.bucket.lastRefillMs <= at
    && (o.grants == remaining ==> o.bucket.tokens < 1.0 || o.bucket.lastRefillMs <= lastTurn)
  }

  lemma CountsOn(l: Limits, o: Outcome, remaining: nat, resetAtMs: int, at: int, lastTurn: int, s: Step)
    requires CountedDown(o, remaining, resetAtMs, at, lastTurn) && !s.Report? && at <= s.now < resetAtMs
    requires lastTurn <= s.now && (s.Turn? ==> lastTurn < s.now)
    ensures CountedDown(Outcome(Do(l, o.bucket, s), o.grants + (if s.Turn? && Grants(l, o.bucket, s.now) then 1 else 0), o.reports),
                        remaining, resetAtMs, s.now, if s.Turn? then s.now else lastTurn)
  {
  }

  /** While the reset is ahead, every step counts on. */
  lemma {:induction false} BudgetCounts(l: Limits, b: Bucket, remaining: nat, resetAtMs: int, from: int, steps: seq<Step>)
    requires Valid(l, b) && l.rate >= 0.0 && l.burst >= 0.0
    requires Monotone(from, steps) && TurnsAdvance(steps)
    requires forall i :: 0 <= i < |steps| ==> !steps[i].Report? && steps[i].now < resetAtMs && (steps[i].Turn? ==> from < steps[i].now)
    ensures CountedDown(DoAll(l, Budgeted(l, b, remaining, resetAtMs, from), steps), remaining, resetAtMs,
                        LastTime(from, steps), LastTurn(from, steps))
  {
    hide Do, Grants;
    if steps != [] {
      hide CountedDown, Budgeted;
      var last := |steps| - 1;
      var s := steps[last];
      BudgetCounts(l, b, remaining, resetAtMs, from, steps[..last]);
      LastTurnBefore(from, steps, last);
      CountsOn(l, DoAll(l, Budgeted(l, b, remaining, resetAtMs, from), steps[..last]), remaining, resetAtMs,
               LastTime(from, steps[..last]), LastTurn(from, steps[..last]), s);
    }
  }

  lemma LastTurnBefore(from: int, steps: seq<Step>, last: nat)
    requires last < |steps| && Monotone(from, steps) && TurnsAdvance(steps) && (steps[last].Turn? ==> from < steps[last].now)
    ensures LastTurn(from, steps[..last]) <= steps[last].now
    ensures steps[last].Turn? ==> LastTurn(from, steps[..last]) < steps[last].now
  {
    if steps[last].Turn? {
      LastTurnIs(from, steps[..last], steps[last].now);
    } else {
      LastTurnAtMost(from, steps[..last], steps[last].now);
    }
  }

  lemma {:induction false} LastTurnAtMost(from: int, steps: seq<Step>, now: int)
    requires from <= now && forall i :: 0 <= i < |steps| ==> steps[i].now <= now
    ensures LastTurn(from, steps) <= now
  {
    if steps != [] {
      LastTurnAtMost(from, steps[..|steps| - 1], now);
    }
  }

  /**
   * Main result: when the clock advances from turn to turn, at most `remaining` requests are
   * granted before the reported reset.
   */
  lemma HardBudget(l: Limits, b: Bucket, remaining: int, resetAtMs: int, from: int, steps: seq<Step>)
    requires Valid(l, b) && l.rate >= 0.0 && l.burst >= 0.0
    requires Monotone(from, steps) && TurnsAdvance(steps)
    requires forall i :: 0 <= i < |steps| ==> !steps[i].Report? && steps[i].now < resetAtMs && (steps[i].Turn? ==> from < steps[i].now)
    ensures DoAll(l, Budgeted(l, b, remaining, resetAtMs, from), steps).grants <= (if remaining < 0 then 0 else remaining)
  {
    if remaining >= 0 {
      BudgetCounts(l, b, remaining, resetAtMs, from, steps);
    } else {
      NothingLeft(l, b, remaining, resetAtMs, from, steps);
    }
  }

  lemma {:induction false} NothingLeft(l: Limits, b: Bucket, remaining: int, resetAtMs: int, from: int, steps: seq<Step>)
    requires remaining <= 0 && forall i :: 0 <= i < |steps| ==> !steps[i].Report? && steps[i].now < resetAtMs
    ensures var o := DoAll(l, Budgeted(l, b, remaining, resetAtMs, from), steps);
      o.grants == 0 && o.bucket.budget == Budget(remaining, resetAtMs) && o.bucket.tokens == 0.0
  {
    if steps != [] {
      NothingLeft(l, b, remaining, resetAtMs, from, steps[..|steps| - 1]);
    }
  }

  // ---- What a report grants ---------------------------------------------------------------

  /** How many of the steps are turns. */
  function Turns(steps: seq<Step>): nat {
    if steps == [] then 0 else Turns(steps[..|steps| - 1]) + (if steps[|steps| - 1].Turn? then 1 else 0)
  }

  /** Requests a report of `remaining` makes room for at once: whole tokens of the burst, and no more than are left. */
  function Room(l: Limits, remaining: nat): int {
    if remaining <= l.burst.Floor then remaining else l.burst.Floor
  }

  lemma DoFirst(l: Limits, b: Bucket, first: Step, steps: seq<Step>)
    requires steps != []
    ensures var last := |steps| - 1;
      var before := DoAll(l, b, [first] + steps[..last]);
      && DoAll(l, b, [first] + steps).bucket == Do(l, before.bucket, steps[last])
      && DoAll(l, b, [first] + steps).grants
           == before.grants + (if steps[last].Turn? && Grants(l, before.bucket, steps[last].now) then 1 else 0)
  {
    hide Do, Grants;
    assert ([first] + steps)[..|steps|] == [first] + steps[..|steps| - 1];
  }

  lemma DoOne(l: Limits, b: Bucket, s: Step)
    ensures DoAll(l, b, [s] + []).bucket == Do(l, b, s)
    ensures s.Report? ==> DoAll(l, b, [s] + []).grants == 0
  {
    assert ([s] + [])[..0] == [] && [s] + [] == [s];
  }

  /** The reported requests that are not granted yet are there, in the budget and, up to the burst, as tokens. */
  predicate RoomLeft(l: Limits, o: Outcome, remaining: nat, resetAtMs: int) {
    && Valid(l, o.bucket) && o.grants <= remaining
    && o.bucket.budget == Budget(remaining - o.grants, resetAtMs)
    && o.bucket.tokens + o.grants as real >= Min(remaining as real, l.burst)
  }

  lemma RoomStep(l: Limits, o: Outcome, remaining: nat, resetAtMs: int, s: Step)
    requires l.rate >= 0.0 && RoomLeft(l, o, remaining, resetAtMs) && !s.Report? && o.grants < Room(l, remaining)
    ensures s.Turn? ==> Grants(l, o.bucket, s.now)
    ensures RoomLeft(l, Outcome(Do(l, o.bucket, s), o.grants + (if s.Turn? then 1 else 0), 0), remaining, resetAtMs)
  {
    RefilledValid(l, o.bucket, s.now);
    if s.now > o.bucket.lastRefillMs {
      EarnedNatural(l, s.now - o.bucket.lastRefillMs);
    }
    assert Refilled(l, o.bucket, s.now).tokens >= o.bucket.tokens;
    assert Refilled(l, o.bucket, s.now).budget == o.bucket.budget;
    assert o.grants as real + 1.0 <= Min(remaining as real, l.burst);
  }

  lemma LookKeepsRoom(l: Limits, o: Outcome, remaining: nat, resetAtMs: int, now: int)
    requires l.rate >= 0.0 && RoomLeft(l, o, remaining, resetAtMs) && o.grants < remaining
    ensures RoomLeft(l, Outcome(Do(l, o.bucket, Look(now)), o.grants, 0), remaining, resetAtMs)
  {
    RefilledValid(l, o.bucket, now);
    if now > o.bucket.lastRefillMs {
      EarnedNatural(l, now - o.bucket.lastRefillMs);
    }
  }

  lemma {:induction false} RoomHolds(l: Limits, b: Bucket, remaining: nat, resetAtMs: int, at: int, steps: seq<Step>)
    requires Valid(l, b) && l.rate >= 0.0 && l.burst >= 0.0
    requires (forall i :: 0 <= i < |steps| ==> !steps[i].Report?) && Turns(steps) <= Room(l, remaining)
    requires forall i :: 0 <= i < |steps| && !steps[i].Turn? ==> Turns(steps[..i]) < remaining
    ensures var o := DoAll(l, b, [Report(remaining, resetAtMs, at)] + steps);
      o.grants == Turns(steps) && RoomLeft(l, Outcome(o.bucket, o.grants, 0), remaining, resetAtMs)
  {
    hide Do, Grants, RoomLeft, Valid, Room;
    var report := Report(remaining, resetAtMs, at);
    if steps == [] {
      DoOne(l, b, report);
      ReportMakesRoom(l, b, remaining, resetAtMs, at);
    } else {
      var last := |steps| - 1;
      assert forall i :: 0 <= i < last ==> steps[..last][..i] == steps[..i];
      RoomHolds(l, b, remaining, resetAtMs, at, steps[..last]);
      DoFirst(l, b, report, steps);
      var before := DoAll(l, b, [report] + steps[..last]);
      if steps[last].Turn? {
        RoomStep(l, Outcome(before.bucket, before.grants, 0), remaining, resetAtMs, steps[last]);
      } else {
        LookKeepsRoom(l, Outcome(before.bucket, before.grants, 0), remaining, resetAtMs, steps[last].now);
      }
    }
  }

  lemma ReportMakesRoom(l: Limits, b: Bucket, remaining: nat, resetAtMs: int, at: int)
    requires Valid(l, b) && l.burst >= 0.0
    ensures RoomLeft(l, Outcome(Do(l, b, Report(remaining, resetAtMs, at)), 0, 0), remaining, resetAtMs)
  {
  }

  /**
   * Main result: after a report of requests left, whatever the bucket held and whatever the clock
   * does, the next turns are all granted, as many as are left, up to the burst; in between anybody
   * may look at the bucket while requests are left.
   */
  lemma ReportGrants(l: Limits, b: Bucket, remaining: nat, resetAtMs: int, at: int, steps: seq<Step>)
    requires Valid(l, b) && l.rate >= 0.0 && l.burst >= 0.0
    requires (forall i :: 0 <= i < |steps| ==> !steps[i].Report?) && Turns(steps) <= Room(l, remaining)
    requires forall i :: 0 <= i < |steps| && !steps[i].Turn? ==> Turns(steps[..i]) < remaining
    ensures DoAll(l, b, [Report(remaining, resetAtMs, at)] + steps).grants == Turns(steps)
  {
    RoomHolds(l, b, remaining, resetAtMs, at, steps);
  }

  /** A report of requests left never takes a token away, and tops the bucket up to no more than are left. */
  lemma ReportNeverLowers(l: Limits, b: Bucket, remaining: int, resetAtMs: int, at: int)
    requires Valid(l, b) && remaining > 0 && l.burst >= 0.0
    ensures var tokens := Do(l, b, Report(remaining, resetAtMs, at)).tokens;
      && b.tokens <= tokens <= l.burst
      && (tokens > b.tokens ==> tokens <= remaining as real)
      && (tokens < l.burst ==> tokens >= remaining as real)
  {
  }

  /** After a report of nothing left no turn is granted before the reset, whatever the clock does. */
  lemma {:induction false} ReportRefuses(l: Limits, b: Bucket, remaining: int, resetAtMs: int, at: int, steps: seq<Step>)
    requires remaining <= 0 && forall i :: 0 <= i < |steps| ==> !steps[i].Report? && steps[i].now < resetAtMs
    ensures var o := DoAll(l, b, [Report(remaining, resetAtMs, at)] + steps);
      o.grants == 0 && o.bucket.tokens == 0.0 && o.bucket.budget == Budget(remaining, resetAtMs)
  {
    if steps == [] {
      DoOne(l, b, Report(remaining, resetAtMs, at));
    } else {
      ReportRefuses(l, b, remaining, resetAtMs, at, steps[..|steps| - 1]);
      DoFirst(l, b, Report(remaining, resetAtMs, at), steps);
    }
  }

  /** From the reset on it is granted again, as soon as a token is earned. */
  lemma GrantsAfterReset(l: Limits, b: Bucket, remaining: int, resetAtMs: int, at: int, now: int)
    requires Valid(l, b) && l.burst >= 1.0 && now > at && now >= resetAtMs && Earned(l, now - at) >= 1.0
    ensures DoAll(l, b, [Report(remaining, resetAtMs, at)] + [Turn(now)]).grants == 1
  {
    DoFirst(l, b, Report(remaining, resetAtMs, at), [Turn(now)]);
    assert [Turn(now)][..0] == [];
    DoOne(l, b, Report(remaining, resetAtMs, at));
  }

  /** With the budget used up before its reset, a turn is granted exactly when it comes in the tick of the last refill and tokens are left. */
  lemma GrantedBeyondBudget(l: Limits, b: Bucket, now: int)
    requires Blocked(b, now)
    ensures Grants(l, b, now) <==> now <= b.lastRefillMs && b.tokens >= 1.0
  {
  }

  /** So in one tick more requests than the budget are granted: two turns, one request left. */
  lemma SameTickOverrun(l: Limits, now: int)
    requires l.burst >= 2.0 && l.rate > 0.0
    ensures DoAll(l, Budgeted(l, Bucket(l.burst, now, NoBudget), 1, now + 60_000, now), [Turn(now), Turn(now)]).grants == 2
  {
    var b := Budgeted(l, Bucket(l.burst, now, NoBudget), 1, now + 60_000, now);
    var steps := [Turn(now), Turn(now)];
    assert steps[..1] == [Turn(now)] && steps[..1][..0] == [];
    assert DoAll(l, b, steps[..1]).bucket == Attempt(l, b, now);
  }
}
