/**
 * The token bucket of the GitHub request queue (core/request-queue.ts), as atomic steps between
 * awaits: the bucket never exceeds its burst, any window grants boundedly many requests, a reported
 * budget is kept while the clock advances, and an uncontended caller is served.
 */
module TokenBucket {
  /** budgetRemaining and budgetResetAt (in milliseconds), set and cleared together. */
  datatype Budget = NoBudget | Budget(remaining: int, resetAtMs: int)

  datatype Limits = Limits(rate: real, burst: real)

  datatype Bucket = Bucket(tokens: real, lastRefillMs: int, budget: Budget)

  function Min(a: real, b: real): real {
    if a < b then a else b
  }

  function Max(a: real, b: real): real {
    if a > b then a else b
  }

  /** Tokens earned in some milliseconds. */
  function Earned(l: Limits, elapsedMs: int): real {
    elapsedMs as real / 1000.0 * l.rate
  }

  /** The budget is used up and its reset has not come. */
  predicate Blocked(b: Bucket, now: int) {
    b.budget.Budget? && b.budget.remaining <= 0 && now < b.budget.resetAtMs
  }

  function Refilled(l: Limits, b: Bucket, now: int): Bucket {
    if now <= b.lastRefillMs then b
    else if Blocked(b, now) then b.(tokens := 0.0, lastRefillMs := now)
    else
      var budget := if b.budget.Budget? && b.budget.remaining <= 0 then NoBudget else b.budget;
      Bucket(Min(l.burst, b.tokens + Earned(l, now - b.lastRefillMs)), now, budget)
  }

  /** Take one token, and one request of the budget. */
  function Take(b: Bucket): Bucket {
    var budget := if b.budget.Budget? && b.budget.remaining > 0 then b.budget.(remaining := b.budget.remaining - 1) else b.budget;
    b.(tokens := b.tokens - 1.0, budget := budget)
  }

  predicate Grants(l: Limits, b: Bucket, now: int) {
    Refilled(l, b, now).tokens >= 1.0
  }

  /** One turn of a caller of `acquire`: refill, then take a token or go to sleep. */
  function Attempt(l: Limits, b: Bucket, now: int): Bucket {
    if Grants(l, b, now) then Take(Refilled(l, b, now)) else Refilled(l, b, now)
  }

  function Budgeted(l: Limits, b: Bucket, remaining: int, resetAtMs: int, now: int): Bucket {
    Bucket(if remaining > 0 then Max(b.tokens, Min(remaining as real, l.burst)) else 0.0, now, Budget(remaining, resetAtMs))
  }

  function Ceil(x: real): int {
    if x.Floor as real == x then x.Floor else x.Floor + 1
  }

  /** msUntilNextToken. */
  function MsUntilNextToken(l: Limits, b: Bucket, now: int): int
    requires l.rate > 0.0
  {
    if Blocked(b, now) then (if b.budget.resetAtMs - now < 60_000 then b.budget.resetAtMs - now else 60_000)
    else if b.tokens >= 1.0 then 0
    else Ceil((1.0 - b.tokens) / l.rate * 1000.0)
  }

  predicate Valid(l: Limits, b: Bucket) {
    0.0 <= b.tokens <= l.burst
  }

  lemma RefilledValid(l: Limits, b: Bucket, now: int)
    requires Valid(l, b) && l.rate >= 0.0
    ensures Valid(l, Refilled(l, b, now))
    ensures now >= b.lastRefillMs ==> Refilled(l, b, now).lastRefillMs == now
  {
    if now > b.lastRefillMs {
      EarnedNatural(l, now - b.lastRefillMs);
    }
  }

  lemma EarnedNatural(l: Limits, elapsedMs: int)
    requires l.rate >= 0.0 && elapsedMs >= 0
    ensures Earned(l, elapsedMs) >= 0.0
  {
  }

  lemma EarnedAdds(l: Limits, a: int, b: int)
    ensures Earned(l, a + b) == Earned(l, a) + Earned(l, b)
  {
    calc {
      Earned(l, a + b);
      (a as real + b as real) / 1000.0 * l.rate;
      (a as real / 1000.0 + b as real / 1000.0) * l.rate;
      Earned(l, a) + Earned(l, b);
    }
  }

  // ---- How long a caller sleeps -----------------------------------------------------------

  /** Started minutes. */
  function Minutes(ms: int): nat
    requires ms >= 0
  {
    (ms + 59_999) / 60_000
  }

  function MinutesUntilReset(b: Bucket, now: int): nat {
    if Blocked(b, now) then Minutes(b.budget.resetAtMs - now) else 0
  }

  /** How many sleeps a lone caller still needs at most. */
  function WaitsLeft(b: Bucket, now: int): nat {
    if b.tokens >= 1.0 then 0 else MinutesUntilReset(b, now) + 1
  }

  /** The natural refill earns the missing part of a token in the time msUntilNextToken asks for. */
  lemma DeficitEarned(l: Limits, deficit: real, elapsedMs: int)
    requires l.rate > 0.0 && deficit > 0.0 && elapsedMs >= Ceil(deficit / l.rate * 1000.0)
    ensures Earned(l, elapsedMs) >= deficit
  {
    var ms := deficit / l.rate * 1000.0;
    assert elapsedMs as real >= ms;
    assert elapsedMs as real / 1000.0 >= deficit / l.rate;
    assert elapsedMs as real / 1000.0 * l.rate >= deficit / l.rate * l.rate;
  }

  /** A sleep that is not cut short brings a lone caller closer. */
  lemma WaitShrinks(l: Limits, b: Bucket, now: int, woken: int)
    requires l.rate > 0.0 && l.burst >= 1.0 && Valid(l, b) && b.tokens < 1.0 && b.lastRefillMs <= now
    requires woken >= now + 1 && woken >= now + MsUntilNextToken(l, b, now)
    ensures WaitsLeft(Refilled(l, b, woken), woken) < WaitsLeft(b, now)
  {
    if !Blocked(b, now) {
      DeficitEarned(l, 1.0 - b.tokens, woken - b.lastRefillMs);
    }
  }

  // ---- The bucket as an object ------------------------------------------------------------

  class Throttle {
    const rate: real
    const burst: real
    var tokens: real
    var lastRefillMs: int
    var budget: Budget

    ghost function View(): Bucket
      reads this
    {
      Bucket(tokens, lastRefillMs, budget)
    }

    ghost function Limited(): Limits {
      Limits(rate, burst)
    }

    ghost predicate Sound()
      reads this
    {
      rate > 0.0 && burst >= 0.0 && Valid(Limited(), View())
    }

    constructor (rate: real, burst: real, now: int)
      requires rate > 0.0 && burst >= 0.0
      ensures Sound() && Limited() == Limits(rate, burst) && View() == Bucket(burst, now, NoBudget)
    {
      this.rate, this.burst := rate, burst;
      tokens, lastRefillMs, budget := burst, now, NoBudget;
    }

    method Refill(now: int)
      requires Sound()
      modifies this
      ensures Sound() && View() == Refilled(Limited(), old(View()), now)
    {
      RefilledValid(Limited(), View(), now);
      var elapsedMs := now - lastRefillMs;
      if elapsedMs <= 0 {
        return;
      }
      if budget.Budget? && budget.remaining <= 0 {
        if now < budget.resetAtMs {
          tokens, lastRefillMs := 0.0, now;
          return;
        }
        budget := NoBudget;
      }
      tokens := Min(burst, tokens + elapsedMs as real / 1000.0 * rate);
      lastRefillMs := now;
    }

    method UpdateBudget(remaining: int, resetAtMs: int, now: int)
      requires Sound()
      modifies this
      ensures Sound() && View() == Budgeted(Limited(), old(View()), remaining, resetAtMs, now)
    {
      budget := Budget(remaining, resetAtMs);
      tokens := if remaining > 0 then Max(tokens, Min(remaining as real, burst)) else 0.0;
      lastRefillMs := now;
    }

    /** One turn of the loop of `acquire`. */
    method TryAcquire(now: int) returns (granted: bool)
      requires Sound()
      modifies this
      ensures Sound() && granted == Grants(Limited(), old(View()), now)
      ensures View() == Attempt(Limited(), old(View()), now)
    {
      Refill(now);
      granted := tokens >= 1.0;
      if granted {
        tokens := tokens - 1.0;
        if budget.Budget? && budget.remaining > 0 {
          budget := budget.(remaining := budget.remaining - 1);
        }
      }
    }

    method IsThrottled(now: int) returns (throttled: bool)
      requires Sound()
      modifies this
      ensures Sound() && throttled == !Grants(Limited(), old(View()), now)
      ensures View() == Refilled(Limited(), old(View()), now)
    {
      Refill(now);
      throttled := tokens < 1.0;
    }

    /**
     * acquire, with no other caller in between: sleep number k lasts `late(k)` longer than asked for.
     * It returns after at most one wait per started minute until the reported reset, and one more;
     * without a budget block after at most one. The last turn, from bucket `latest`, took a token.
     */
    method Acquire(exempt: bool, start: int, late: nat -> nat) returns (waits: nat, now: int, ghost latest: Bucket)
      requires Sound() && burst >= 1.0 && lastRefillMs <= start
      modifies this
      ensures Sound() && now >= start
      ensures exempt ==> waits == 0 && View() == old(View())
      ensures !exempt ==> waits <= MinutesUntilReset(old(View()), start) + 1
      ensures !exempt ==> Grants(Limited(), latest, now) && View() == Attempt(Limited(), latest, now)
    {
      waits, now, latest := 0, start, View();
      if exempt {
        return;
      }
      Refill(now);
      while tokens < 1.0
        invariant Sound() && View() == Refilled(Limited(), latest, now) && lastRefillMs <= now && start <= now
        invariant waits + WaitsLeft(View(), now) <= MinutesUntilReset(old(View()), start) + 1
        decreases WaitsLeft(View(), now)
      {
        var waitMs := MsUntilNextToken(Limits(rate, burst), Bucket(tokens, lastRefillMs, budget), now);
        var woken := now + (if waitMs < 1 then 1 else waitMs) + late(waits);
        WaitShrinks(Limited(), View(), now, woken);
        latest, now := View(), woken;
        Refill(now);
        waits := waits + 1;
      }
      tokens := tokens - 1.0;
      if budget.Budget? && budget.remaining > 0 {
        budget := budget.(remaining := budget.remaining - 1);
      }
    }
  }
}
