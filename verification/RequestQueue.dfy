/**
 * The priority semaphore and the in-flight accounting of the GitHub request queue
 * (core/request-queue.ts), as atomic steps between awaits.
 */
module RequestQueue {
  datatype Priority = Critical | High | Normal | Low {
    /** PRIORITY_ORDER. */
    function Rank(): nat {
      match this
      case Critical => 0
      case High => 1
      case Normal => 2
      case Low => 3
    }
  }

  /** A caller that waits for a slot. */
  datatype Waiter = Waiter(priority: Priority, ticket: nat)

  /** The semaphore: slots in use and the callers waiting for one, in order of arrival. */
  datatype Slots = Slots(running: int, waiting: seq<Waiter>)

  /** A release wakes one waiter, or frees the slot. */
  datatype Wakeup = Nobody | Woken(ticket: nat)

  /** The first waiter of the best priority class. */
  function BestWaiter(waiting: seq<Waiter>): (best: nat)
    requires waiting != []
    ensures best < |waiting|
  {
    if |waiting| == 1 then 0
    else
      var last := |waiting| - 1;
      var best := BestWaiter(waiting[..last]);
      if waiting[last].priority.Rank() < waiting[best].priority.Rank() then last else best
  }

  function Without(waiting: seq<Waiter>, k: nat): seq<Waiter>
    requires k < |waiting|
  {
    waiting[..k] + waiting[k + 1..]
  }

  function Acquired(s: Slots, max: int, w: Waiter): Slots {
    if s.running < max then s.(running := s.running + 1) else s.(waiting := s.waiting + [w])
  }

  function Released(s: Slots): Slots {
    if s.waiting == [] then s.(running := s.running - 1) else s.(waiting := Without(s.waiting, BestWaiter(s.waiting)))
  }

  /** PrioritySemaphore. */
  class PrioritySemaphore {
    var running: int
    var waiting: seq<Waiter>
    const maxConcurrency: int

    ghost function View(): Slots
      reads this
    {
      Slots(running, waiting)
    }

    constructor (maxConcurrency: int)
      ensures View() == Slots(0, []) && this.maxConcurrency == maxConcurrency
    {
      this.maxConcurrency := maxConcurrency;
      running, waiting := 0, [];
    }

    /** The caller either has its slot now or waits in the queue. */
    method Acquire(priority: Priority, ticket: nat) returns (granted: bool)
      modifies this
      ensures View() == Acquired(old(View()), maxConcurrency, Waiter(priority, ticket))
      ensures granted <==> old(running) < maxConcurrency
    {
      granted := running < maxConcurrency;
      if granted {
        running := running + 1;
      } else {
        waiting := waiting + [Waiter(priority, ticket)];
      }
    }

    method Release() returns (woken: Wakeup)
      modifies this
      ensures View() == Released(old(View()))
      ensures woken == if old(waiting) == [] then Nobody else Woken(old(waiting)[BestWaiter(old(waiting))].ticket)
    {
      if waiting == [] {
        running := running - 1;
        return Nobody;
      }
      var best, bestRank := 0, waiting[0].priority.Rank();
      var i := 1;
      while i < |waiting|
        invariant 1 <= i <= |waiting| && waiting == old(waiting) && running == old(running)
        invariant best == BestWaiter(waiting[..i]) && bestRank == waiting[best].priority.Rank()
      {
        assert waiting[..i + 1][..i] == waiting[..i];
        var rank := waiting[i].priority.Rank();
        if rank < bestRank {
          best, bestRank := i, rank;
        }
        i := i + 1;
      }
      assert waiting[..|waiting|] == waiting;
      woken := Woken(waiting[best].ticket);
      waiting := waiting[..best] + waiting[best + 1..];
    }
  }

  /** Main result: a release wakes the earliest arrival of the best priority class that waits. */
  lemma {:induction false} WakesFirstOfBestClass(waiting: seq<Waiter>)
    requires waiting != []
    ensures var best := BestWaiter(waiting);
      && (forall k :: 0 <= k < |waiting| ==> waiting[best].priority.Rank() <= waiting[k].priority.Rank())
      && (forall k :: 0 <= k < best ==> waiting[best].priority.Rank() < waiting[k].priority.Rank())
  {
    if |waiting| > 1 {
      WakesFirstOfBestClass(waiting[..|waiting| - 1]);
    }
  }

  // ---- Whole runs -------------------------------------------------------------------------

  /** The life of a request: wait for a slot, start, finish. */
  datatype Step = Ask(w: Waiter) | Begin(ticket: nat) | Finish(ticket: nat, category: string, failed: bool)

  /**
   * The queue: the semaphore, the tickets that hold a slot but have not started, those in flight,
   * and the accounting.
   */
  datatype Queue = Queue(slots: Slots, holding: set<nat>, inFlight: set<nat>, totalRequests: nat,
                         finished: map<string, nat>, failures: map<string, nat>)

  function EmptyQueue(): Queue {
    Queue(Slots(0, []), {}, {}, 0, map[], map[])
  }

  function Tally(m: map<string, nat>, category: string, amount: nat): map<string, nat> {
    m[category := (if category in m then m[category] else 0) + amount]
  }

  /** One atomic step of enqueue. */
  function Do(q: Queue, max: int, s: Step): Queue {
    match s
    case Ask(w) =>
      q.(slots := Acquired(q.slots, max, w), holding := if q.slots.running < max then q.holding + {w.ticket} else q.holding)
    case Begin(t) => q.(holding := q.holding - {t}, inFlight := q.inFlight + {t}, totalRequests := q.totalRequests + 1)
    case Finish(t, category, failed) =>
      var waiting := q.slots.waiting;
      q.(slots := Released(q.slots),
         holding := if waiting == [] then q.holding else q.holding + {waiting[BestWaiter(waiting)].ticket},
         inFlight := q.inFlight - {t},
         finished := Tally(q.finished, category, 1),
         failures := Tally(q.failures, category, if failed then 1 else 0))
  }

  predicate Waiting(q: Queue, t: nat) {
    exists k :: 0 <= k < |q.slots.waiting| && q.slots.waiting[k].ticket == t
  }

  /** Requests ask once, start when they hold a slot, and finish when they are in flight. */
  predicate Allowed(q: Queue, s: Step) {
    match s
    case Ask(w) => w.ticket !in q.holding && w.ticket !in q.inFlight && !Waiting(q, w.ticket)
    case Begin(t) => t in q.holding
    case Finish(t, _, _) => t in q.inFlight
  }

  /** What holds between steps. */
  ghost predicate Sound(q: Queue, max: int) {
    && 0 <= q.slots.running <= max
    && (q.slots.waiting != [] ==> q.slots.running == max)
    && q.slots.running == |q.holding| + |q.inFlight|
    && q.holding !! q.inFlight
    && (forall j, k :: 0 <= j < k < |q.slots.waiting| ==> q.slots.waiting[j].ticket != q.slots.waiting[k].ticket)
    && (forall k :: 0 <= k < |q.slots.waiting| ==>
          q.slots.waiting[k].ticket !in q.holding && q.slots.waiting[k].ticket !in q.inFlight)
  }

  /**
   * Main result: every step keeps the slots in bound, lets callers wait only while all slots are
   * taken, and accounts for every slot by a request that holds it or is in flight.
   */
  lemma StepSound(q: Queue, max: int, s: Step)
    requires Sound(q, max) && Allowed(q, s)
    ensures Sound(Do(q, max, s), max)
  {
    hide Sound, Do;
    match s
    case Ask(w) => AskSound(q, max, w);
    case Begin(t) => BeginSound(q, max, t);
    case Finish(t, category, failed) => FinishSound(q, max, t, category, failed);
  }

  lemma AskSound(q: Queue, max: int, w: Waiter)
    requires Sound(q, max) && Allowed(q, Ask(w))
    ensures Sound(Do(q, max, Ask(w)), max)
  {
    hide BestWaiter, Tally, Released;
  }

  lemma BeginSound(q: Queue, max: int, t: nat)
    requires Sound(q, max) && Allowed(q, Begin(t))
    ensures Sound(Do(q, max, Begin(t)), max)
  {
    hide BestWaiter, Tally, Released, Acquired;
    assert |q.holding - {t}| == |q.holding| - 1 && |q.inFlight + {t}| == |q.inFlight| + 1;
  }

  lemma FinishSound(q: Queue, max: int, t: nat, category: string, failed: bool)
    requires Sound(q, max) && Allowed(q, Finish(t, category, failed))
    ensures Sound(Do(q, max, Finish(t, category, failed)), max)
  {
    hide BestWaiter, Tally, Acquired, Without;
    assert |q.inFlight - {t}| == |q.inFlight| - 1;
    if q.slots.waiting != [] {
      WakeSound(q, max, BestWaiter(q.slots.waiting));
    }
  }

  /** Waking a waiter keeps the tickets apart. */
  lemma WakeSound(q: Queue, max: int, k: nat)
    requires Sound(q, max) && k < |q.slots.waiting|
    ensures var left, woken := Without(q.slots.waiting, k), q.slots.waiting[k].ticket;
      && |q.holding + {woken}| == |q.holding| + 1 && woken !in q.inFlight
      && (forall i, j :: 0 <= i < j < |left| ==> left[i].ticket != left[j].ticket)
      && (forall i :: 0 <= i < |left| ==> left[i].ticket !in q.holding + {woken} && left[i].ticket !in q.inFlight)
  {
    var left := Without(q.slots.waiting, k);
    assert forall i :: 0 <= i < |left| ==> left[i] == q.slots.waiting[if i < k then i else i + 1];
  }

  /** No request is lost: a step keeps every other request waiting, holding a slot, or in flight, and wakes a waiter if one waits. */
  lemma NothingLost(q: Queue, max: int, s: Step, t: nat)
    requires Sound(q, max) && Allowed(q, s)
    ensures var next := Do(q, max, s);
      && (Waiting(q, t) ==> Waiting(next, t) || t in next.holding)
      && (t in q.holding ==> t in next.holding || (s == Begin(t) && t in next.inFlight))
      && (t in q.inFlight ==> t in next.inFlight || (s.Finish? && s.ticket == t))
      && (s.Finish? && q.slots.waiting != [] ==> |next.slots.waiting| == |q.slots.waiting| - 1 && next.slots.running == q.slots.running)
  {
    var next := Do(q, max, s);
    if k :| 0 <= k < |q.slots.waiting| && q.slots.waiting[k].ticket == t {
      match s {
        case Ask(w) => assert next.slots.waiting[k] == q.slots.waiting[k];
        case Begin(_) => assert next.slots.waiting[k] == q.slots.waiting[k];
        case Finish(_, _, _) =>
          var best := BestWaiter(q.slots.waiting);
          if k != best {
            assert next.slots.waiting[if k < best then k else k - 1] == q.slots.waiting[k];
          }
      }
    }
  }

  function RunQueue(max: int, steps: seq<Step>): Queue {
    if steps == [] then EmptyQueue() else Do(RunQueue(max, steps[..|steps| - 1]), max, steps[|steps| - 1])
  }

  ghost predicate AllAllowed(max: int, steps: seq<Step>) {
    forall k :: 0 <= k < |steps| ==> Allowed(RunQueue(max, steps[..k]), steps[k])
  }

  /** How many steps of a run are starts, and how many are finishes. */
  function Starts(steps: seq<Step>): nat {
    if steps == [] then 0 else Starts(steps[..|steps| - 1]) + (if steps[|steps| - 1].Begin? then 1 else 0)
  }

  function Finishes(steps: seq<Step>, category: string): nat {
    if steps == [] then 0
    else
      var s := steps[|steps| - 1];
      Finishes(steps[..|steps| - 1], category) + (if s.Finish? && s.category == category then 1 else 0)
  }

  function Failures(steps: seq<Step>, category: string): nat {
    if steps == [] then 0
    else
      var s := steps[|steps| - 1];
      Failures(steps[..|steps| - 1], category) + (if s.Finish? && s.category == category && s.failed then 1 else 0)
  }

  function Of(m: map<string, nat>, category: string): nat {
    if category in m then m[category] else 0
  }

  lemma {:induction false} RunSound(max: int, steps: seq<Step>)
    requires max >= 0 && AllAllowed(max, steps)
    ensures Sound(RunQueue(max, steps), max)
  {
    if steps != [] {
      hide Sound, Allowed, Do;
      var last := |steps| - 1;
      assert forall k :: 0 <= k < last ==> steps[..last][..k] == steps[..k];
      RunSound(max, steps[..last]);
      StepSound(RunQueue(max, steps[..last]), max, steps[last]);
    }
  }

  lemma {:induction false} CountersTell(max: int, steps: seq<Step>, category: string)
    ensures var q := RunQueue(max, steps);
      && q.totalRequests == Starts(steps)
      && Of(q.finished, category) == Finishes(steps, category)
      && Of(q.failures, category) == Failures(steps, category)
      && Failures(steps, category) <= Finishes(steps, category)
  {
    hide Acquired, Released, BestWaiter;
    if steps != [] {
      CountersTell(max, steps[..|steps| - 1], category);
    }
  }

  /**
   * Main result: over any run the slots in use never exceed the limit, every slot belongs to one
   * request, requests wait only while all slots are taken, and the accounting equals the log.
   */
  lemma QueueAccounts(max: int, steps: seq<Step>, category: string)
    requires max >= 0 && AllAllowed(max, steps)
    ensures var q := RunQueue(max, steps);
      && Sound(q, max) && |q.inFlight| <= max
      && q.totalRequests == Starts(steps)
      && Of(q.finished, category) == Finishes(steps, category)
      && Of(q.failures, category) == Failures(steps, category)
  {
    hide RunQueue, AllAllowed;
    RunSound(max, steps);
    CountersTell(max, steps, category);
  }
}
