# Verified model of the ninthwave orchestrator, crew broker and request queue

A Dafny model of three stateful engines of ninthwave and of the small algorithms next to them, with
proofs of what they keep over whole runs. `dafny verify dfyconfig.toml` checks everything.

## What is modelled

**The orchestrator** (`core/orchestrator.ts`, its types, guards and actions).

- `OrchestratorTypes`, `OrchestratorGuards`: states, the table of legal edges, configuration, the item,
  the snapshot, the actions, the temporal predicates.
- `Lifecycle`: every handler of `processTransitions` for one item, as a function of item, snapshot and
  time. `LifecycleFacts` has one lemma a handler; `LifecycleSteps` has the results about one item and one
  poll: exactly when it throws, and the invariant that bounds what an item may cost in its life.
- `Poll`: the whole poll with its effects on stacked dependents, promotion, launcher and merge queue.
  `PollFacts`, `PollQueues`, `PollTheorems` and `PollBounds` prove when it crashes, what it launches and
  merges, and how many slots it fills.
- `TrackedItems`, `Orchestrator`: the same code as the source writes it, objects whose fields the handlers
  assign and loops over those objects. Every method is proved to do to the objects what `Lifecycle` and
  `Poll` say, so the theorems about the functions are theorems about the objects.
- `Destinations`, `PollEffects`, `PollRequests`: for every poll of an item, the state it ends in, what that leaves of
  its fields, and which actions it asks for. `ReviewPosts`: what a poll publishes about a review. `Dependents`,
  `Promotions`: what it does to stacked items, and which queued ones it readies.
- `Execution`, `ExecutionFacts`: the actions as environment steps with arbitrary answers from git, GitHub,
  the multiplexer and the workers. `ExecutionEnds`: where executing an action leaves its item, answer by answer.
  `Claims`, `CrewLaunches`: the resolution of launches through the broker.
- `FeedbackTiming`, `Handoffs`, `StaleSignals`, `LivenessReadings`, `GraceWindows`, `RebaseCooldown`, `RebaseEscalation`,
  `CiNotices`, `WorkerMerges`: when feedback reaches a worker, what a late signal makes of it, when a worker counts as
  dead or overdue, how often a rebase is asked for and a CI failure notified, and when an item merges over its worker,
  each against what the source's comments promise.
- `ActionHomes`, `PollHomes`, `ActionRuns`: in which state the actions of a poll find their items, and when executing
  them throws.
- `Run`: any sequence of polls, executions, commits, changes of the merge strategy, and items added, removed or
  edited. `LawfulRuns`, `Witnesses`: runs that execute only what was asked for and end in an exception.
  `RuntimeSettings`, `ReviewSwitch`: settings that change in between, and the polls after the reviews are switched
  off and on. `StackChain`: the chain of stacked pull requests.

**The crew broker** (`core/broker-state.ts`, `core/broker-store.ts`). `Broker` specifies every step with its
event log; `BrokerState` updates a crew in place as specified. `BrokerEffects` says what a step makes of the
crew, without naming its parts. `BrokerFacts` proves the ownership index and that the log tells the truth,
`BrokerRuns` the shape of every log, progress and the drain in dependency order, `BrokerTiming` when work is
let go, `BrokerStatus` that the counts partition the work, and `BrokerStore` the recency order of the bounded
store and the stored form.

**The request queue** (`core/request-queue.ts`), as atomic steps between awaits. `TokenBucket` has the bucket
object and its specification, `TokenBounds` the bounds over any interleaving, `RequestQueue` the priority
semaphore and the accounting of requests.

**Smaller algorithms.** `Comments`: the scanners of `core/config.ts` and `core/opencode-config.ts`.
`Reconcile`: the watch-mode reconcile pass of `core/orchestrate-event-loop.ts`.

## Conventions

- A missing snapshot is the snapshot that knows nothing (`NoSnapshot`): the source reads it through optional
  chaining only. Within one poll there is one clock reading. Timestamps are integers in milliseconds, or absent.
- Ids are naturals in the order of `localeCompare`. A base branch is the id of the item it belongs to. Items
  are a sequence in insertion order, with distinct ids, as the source's `Map` keeps them.
- An exception of `transition` is an outcome (`Throw`, `Crash`). The event loop does not catch it, so a run
  ends there; the run theorems speak of runs that did not crash, and `PollTheorems.PollCrashesExactly` says
  exactly which polls do.
- Answers of git, GitHub, the multiplexer, workers and the broker are arbitrary parameters.
- Hypotheses, where a theorem has them: added items have fresh ids; the grace period is not negative; the
  clock is monotone for the window and budget bounds of the bucket; scanned ids are unique for reconciling.
- Rows under `TrackedItems` and `Orchestrator` state agreement of an in-place method with its specification,
  old fields to new fields and actions; what the specification is good for is stated by the other rows. The
  methods of the single handlers agree with the functions of the same name and have no row of their own.
- "Approved" in the merge gate means an approve verdict at some commit; `ActionHomes.MergesApprovedHeadExactly` says
  when it is the merged one.

## Where the code differs from its comments or promises

The model follows the code.

1. Comments that arrive during a review are said to wait for the verdict (`core/orchestrator.ts:1951-1954`), but
   the last step of `transitionItem` (`core/orchestrator.ts:831`) delivers them when their batch falls due:
   `FeedbackTiming.CommentsWaitForVerdictExactly`, with `CommentInterruptsReview` as an input.
2. An implementing worker with an open pull request that signals "no new info" makes the poll throw
   (`core/orchestrator.ts:938`, `core/orchestrator.ts:959`), and so does a due feedback batch on a parked stuck
   item. `LifecycleSteps.ThrowsExactly` proves that nothing else does; `Witnesses` has a run for each.
3. From ci-passed the "no new info" branch parks the session and the transition that follows clears the flag
   again (`core/orchestrator.ts:933-938`, `core/orchestrator.ts:389`): `FeedbackTiming.SettledParksExactly`, with
   `SettlesUnparked` over a whole poll.
4. CI failure is to be notified once per failure cycle. A failure during a review is notified without being put on
   record (`core/orchestrator.ts:2019-2027`), so the next poll notifies again, and an undefined commit time notifies
   again on every poll (`core/orchestrator.ts:1496-1500`). `CiNotices.NotifiesAgainExactly` proves that these are the
   only two cases, `ReviewFailureRepeats` is an input of the first.
5. `core/orchestrator.ts:1730` makes a merge wait for the worker's workspace. The forced re-evaluation after a strategy
   change (`core/orchestrator.ts:322-330`) skips this check: `FeedbackTiming.ReevaluationMergesExactly`, with
   `StrategyChangeMergesOverWorker` for both in one poll. So do some branches of a plain poll, among them the drain of
   skipped reviews (`core/orchestrator.ts:1649-1663`) and the feedback-done signal (`core/orchestrator.ts:1696-1700`):
   `WorkerMerges.WorkerMergesExactly` lists them all, `DrainMergesOverWorker` is an input.
6. A handoff that relaunches the worker and a batch that falls due in the same poll leave only the later
   message: the tail overwrites the first (`core/orchestrator.ts:1411-1440`, `core/orchestrator.ts:831`).
   `FeedbackTiming.RelaunchKeepsMessageExactly` says when the message survives, `ReviewFeedbackIsLost` is an input.
7. The recovery of a stalled reviewer can ask for a rebase and start a review at once, so the rebase request is
   executed while reviewing, from where its circuit breaker throws. With reviews skipped the recovery merges at once
   instead: the rebase request runs first (`core/orchestrate-event-loop.ts:1363-1379`), its circuit breaker gets the
   item stuck, and the merge throws after GitHub merged the pull request. `ActionRuns.PollRunCrashesExactly` proves
   that executing what a poll returned throws in these two ways only, and when; `ActionHomes.StalledReviewThrows` and
   `ActionRuns.MergeAfterRebaseThrows` are inputs.
8. A used-up API budget is exceeded in the tick of the last refill (`core/request-queue.ts:131-132`);
   `TokenBounds.GrantedBeyondBudget` says exactly when.
9. A daemon loaded from disk has no socket and may have no disconnect stamp; it then keeps its items through
   every check (`core/broker-store.ts:178-187`); `BrokerTiming.RestartNeverExpires`, `BrokerTiming.ExpiresExactly`.
10. Turning reviews back on can withdraw the review of an item that is already merging, and the next poll asks
    for the merge all the same (`core/orchestrator.ts:207-215`, `core/orchestrator.ts:2106-2112`);
    `Run.GateAfterSkipReview` says exactly which items. The gate over runs is therefore stated for one review setting.
11. Five consecutive not-alive polls are promised before a worker is declared dead
    (`core/orchestrator-types.ts:788-789`). Readings are counted instead: unknown ones do not interrupt, and a poll
    in which comments fall due reads twice. `LivenessReadings.DeadExactly`, `CountsTwiceExactly` and
    `FivePollsExactly` say when the promise holds.
12. An edit of its file can ask for manual review of an item that is already merging, and the strategy can become
    manual; it is merged all the same (`core/orchestrate-event-loop.ts:946-950`, `core/orchestrator.ts:2106-2112`).
    `Run.GateAfterEdit`, `Run.GateAfterStrategy`; `Run.RunMergeGate` says that there is no other way.
13. A released daemon can still claim: `claimNextWorkItem` asks for a known daemon, not for a socket
    (`core/broker-state.ts:219-226`), and nothing releases it a second time. `BrokerTiming.ReleasedKeepsClaim` proves
    that it keeps the item until it connects, `LateClaimIsKept` is a run; this is why `SilentDaemonOwnsNothing` asks
    for claims over live sockets.
14. The feedback-done signal is a one-shot file (`core/daemon.ts:621-626`), to be cleared by the poll that reads it. With
    CI failed or unknown and comments waiting, `handleReviewPending` returns without the clearing action it had collected
    (`core/orchestrator.ts:1706-1710`), so the signal answers comments the worker has not seen:
    `StaleSignals.ClearsDoneExactly` says when it is cleared, `AnsweredUnread` what happens when it is not.

## Model

| member | source | states |
|---|---|---|
| `LifecycleSteps.ThrowsExactly` | core/orchestrator.ts:655-834 | With sessions parked only in review-pending and stuck, the poll of one item runs off the transition table if and only if an implementing worker wakes spuriously, or a parked stuck item holds a due feedback batch; the only edges tried are implementing to review-pending and stuck to ready; otherwise parked sessions stay where they may be |
| `LifecycleSteps.PollKeepsInv` | core/orchestrator.ts:655-834 | A poll that does not throw keeps every bound of the item and enters every launch and approval in its history; its merge, at most one, has the right admin flag and nothing a human said pending; a slot is kept or taken by a repair pull request; terminal items stay |
| `Destinations.EndsExactly` | core/orchestrator.ts:655-834 | The state a poll leaves an item in, for every state, snapshot, setting and time, as one table of named conditions: through all the handlers a poll chains, the merge evaluation at their end and the batch of comments the last step delivers |
| `PollEffects.PollFollows` | core/orchestrator.ts:655-834 | What every poll leaves of an item follows from where the item goes: its clock restarts with the state and runs on while it waits, a relaunched item hands its session to the retry, a retry is counted exactly when a worker is given up, a CI failure exactly when it is seen anew, the order to fix CI is given exactly when it is relaunched for it, a mergeable pull request clears the record of its rebases, and a disagreement with the review is recorded once |
| `PollEffects.AdoptsExactly` | core/orchestrator.ts:2203-2255 | The pull request that turns up for a working item is the item's; one that a forward fixer opened takes the place of the merged one, which is remembered once, the failed merge commit is forgotten and the counters of CI failures and merge attempts start again |
| `PollRequests.PollAsks` | core/orchestrator.ts:655-834 | Which actions every poll asks for follows from where the item goes: it retries exactly when it relaunches the item, merges exactly when the item starts to merge or is still to be merged, notifies a failed check, launches a forward fixer, ends a review, a rebase or a fix exactly when they are over, and closes a session exactly when nobody needs it; an item that comes to wait for a human only is parked; comments wait on, go out to the worker or are settled, and what is due waits only for a worker that does not answer |
| `LifecycleSteps.SpuriousWakeThrows` | core/orchestrator.ts:938-959 | A concrete implementing item and snapshot on which the poll throws |
| `LifecycleSteps.ParkedBatchThrows` | core/orchestrator.ts:1460-1470 | A concrete ci-failed item whose circuit breaker parks it as stuck and whose feedback batch then throws in the same poll |
| `CiNotices.NotifiesAgainExactly` | core/orchestrator.ts:1496-1509 | A poll that follows one which notified a CI failure, with the same commit time and CI still failing, notifies again exactly when the first item was in review or the commit time is undefined |
| `CiNotices.ReviewFailureRepeats` | core/orchestrator.ts:2001-2028 | A check fails during a review of a commit with a known time: two polls in a row notify, and the third does not |
| `CiNotices.NoticeOnRecord` | core/orchestrator.ts:497-515 | Over every poll: one that notifies leaves the item waiting in ci-failed with the notification on record for its commit time, unless it was in review, where nothing is recorded |
| `FeedbackTiming.CommentsWaitForVerdictExactly` | core/orchestrator.ts:1951-2043 | While a review goes on, a batch of comments is delivered before the verdict exactly when it falls due, whether the item stays in review or leaves it for CI or a conflict; otherwise the feedback is untouched |
| `FeedbackTiming.CommentInterruptsReview` | core/orchestrator.ts:1951-1954 | A comment a minute old that reaches the worker in the middle of a review |
| `FeedbackTiming.IngestsExactly` | core/orchestrator.ts:1283-1321 | What a poll makes of new comments: exactly those of humans join the ones that wait, each once, and the batch falls due a minute after its latest comment, never earlier than before |
| `FeedbackTiming.TailKeepsMessageExactly` | core/orchestrator.ts:831 | In any state the last step of a poll keeps the waiting message exactly when no batch is due, the delivery waits, or the batch says the same |
| `FeedbackTiming.RelaunchKeepsMessageExactly` | core/orchestrator.ts:1411-1440 | A waiting message survives the poll that relaunches the worker for it exactly when no batch falls due in that poll, or the batch says the same |
| `FeedbackTiming.ReviewFeedbackIsLost` | core/orchestrator.ts:1411-1440 | Review feedback that is replaced by a comment before the worker saw it |
| `StaleSignals.ClearsDoneExactly` | core/orchestrator.ts:1680-1710 | A poll that reads the feedback-done signal asks to clear it exactly unless CI neither passes nor runs and comments wait, or the item is parked and relaunched for requested changes or failed checks |
| `StaleSignals.AnsweredUnread` | core/orchestrator.ts:1680-1710 | Whenever new comments go out to the worker in such a poll, the signal stays and the next poll of the same head takes them as answered by it |
| `FeedbackTiming.SettledParksExactly` | core/orchestrator.ts:926-939 | A no-new-info signal leaves the session parked exactly when the item was review-pending already and had a session; the session is closed whenever it was live |
| `FeedbackTiming.SettlesUnparked` | core/orchestrator.ts:903-940 | Over a whole poll from ci-passed the session is closed and not parked |
| `Handoffs.SettlesExactly` | core/orchestrator.ts:903-940 | Over a whole poll that acts on a no-new-info signal the feedback is gone, the review is complete again exactly when it was or this head was approved, and the session is closed exactly when there is one that is not parked |
| `Handoffs.HandoffExactly` | core/orchestrator.ts:1411-1439 | Over a whole poll that hands a waiting message over the head is stamped as reviewed, the message stays, it is sent exactly to a live worker, a worker that is gone is relaunched, and an item about to merge is held for review |
| `Handoffs.InterruptsMergeExactly` | core/orchestrator.ts:2085-2095 | Comments that fall due take a merging item with a complete review back to review-pending, with the review open again and delivery on record only for a live worker |
| `FeedbackTiming.ReevaluationMergesExactly` | core/orchestrator.ts:322-330 | The forced re-evaluation merges a settled item exactly when its review is complete or skipped and no human is needed, whatever its workspace |
| `FeedbackTiming.StrategyChangeMergesOverWorker` | core/orchestrator.ts:1725-1735 | With a worker still in its workspace the poll leaves the item alone, and after a strategy change the same poll merges it unless a human is needed |
| `WorkerMerges.WorkerMergesExactly` | core/orchestrator.ts:1642-1882 | A plain poll of a review-pending item whose worker has its workspace starts the merge, and asks for it, exactly in four cases: the drain of skipped reviews, a pushback or a settled review under skipped reviews, and a feedback-done signal with CI passing; each with nothing a human said pending and no human needed |
| `WorkerMerges.ReviewedMergesExactly` | core/orchestrator.ts:1680-1703 | While reviews are on, it does so exactly when the worker signals that it is done with the feedback on a reviewed commit whose checks pass |
| `WorkerMerges.DrainMergesOverWorker` | core/orchestrator.ts:1649-1663 | Reviews were switched off while the item waited for its worker: the next poll merges it, whatever it sees of CI |
| `ReviewPosts.PublishesExactly` | core/orchestrator.ts:1884-2043 | What every poll publishes about a review, in order: the verdict that was read, with its pull request, with a passing commit status for an approval, and a failing one and a message for requested changes; a passing status for a drained review, a failing one for a dead reviewer; beyond that at most the announcement of a round it starts, and never in a poll that settles a review |
| `ReviewPosts.ChangesRequestedExactly` | core/orchestrator.ts:1978-1995 | After requested changes the head is the reviewed commit and the item waits in review-pending with the feedback of this round, exactly unless a batch of comments falls due and its worker is gone: then it is relaunched |
| `LivenessReadings.DeadExactly` | core/orchestrator.ts:477-499 | A worker counts as dead exactly at the fifth not-alive reading since the last alive one; unknown readings neither count nor interrupt |
| `LivenessReadings.CountsTwiceExactly` | core/orchestrator.ts:1335-1409 | Below the threshold a not-alive poll of a launching, implementing, ci-failed or reviewing item counts two readings exactly when a batch of comments falls due in it, else one |
| `LivenessReadings.WaitingBatchReadsTwice` | core/orchestrator.ts:1335-1347 | In review-pending a due batch that cannot be delivered costs two readings and still waits |
| `LivenessReadings.FivePollsExactly` | core/orchestrator-types.ts:788-789 | A launching item whose worker is never alive is given up within five polls, and only at the fifth exactly when no batch falls due in the first three |
| `LivenessReadings.FourPollsSuffice` | core/orchestrator-types.ts:788-789 | A comment that waited when the worker was relaunched falls due in the first poll, and the worker is given up at the fourth |
| `GraceWindows.GraceExactly` | core/orchestrator.ts:1112-1135 | A worker that is overdue, while launching or at work, gets the grace period and no more: the first poll that finds it late leaves the item in place, and a later one that finds it late takes it back exactly when the period is over |
| `RebaseCooldown.RequestsKeepCooldown` | core/orchestrator.ts:440-473 | Over any polls of one item two rebase requests keep the cooldown, unless a poll after the first found the pull request mergeable or read a time before it |
| `RebaseCooldown.ExecutionKeepsRecord` | core/orchestrator-actions.ts:211-1130 | Executing an action leaves the nudge on record, so executions may come between the polls |
| `RebaseCooldown.CooldownCut` | core/orchestrator.ts:434-438 | A second request a moment after the first, let through by an old event time |
| `RebaseEscalation.ThirdRequestEscalates` | core/orchestrator.ts:440-473 | Over any polls of an item whose conflict lasts, from the first request on: the first two requests go to the daemon and every later one to the rebaser, and the first poll asks |
| `ActionHomes.MergesApprovedHeadExactly` | core/orchestrator.ts:1896-1919 | The head a poll sees is the approved commit after it exactly when this poll read the approve verdict or the head was approved before |
| `ActionHomes.MergesUnapprovedHead` | core/orchestrator.ts:1711-1735 | An item approved at one commit and merged at the next |
| `LifecycleSteps.FixForwardFailedInv` | core/orchestrator.ts:2169-2194 | A forward-fixer launch is paid for by one more counted failure, so launches stay below maxFixForwardRetries |
| `LifecycleSteps.FixingForwardInv` | core/orchestrator.ts:2203-2255 | A repair pull request restarts the review rounds at the price of one forward-fixer launch, and no bound breaks |
| `LifecycleSteps.MergedInv` | core/orchestrator.ts:747-767 | The merged handler keeps all bounds; a failed merge commit raises the failure count by exactly one |
| `LifecycleSteps.ForwardFixPendingInv` | core/orchestrator.ts:2121-2147 | The verification of the merge commit keeps all bounds |
| `LifecycleFacts.EvaluateMergeFacts` | core/orchestrator.ts:2258-2376 | Merge evaluation never throws from ci-passed or review-pending; it enters merging only with a complete review, no manual review flag and no manual strategy, launches a review only within the rounds, and merges only with no batch and no undelivered message |
| `LifecycleFacts.HoldOrMergeFacts` | core/orchestrator.ts:2328-2372 | With the review complete the item is held in review-pending exactly when a human is needed, and else asks for exactly one merge, with admin exactly under bypass |
| `LifecycleFacts.LaunchReviewRoundFacts` | core/orchestrator.ts:2287-2326 | A review launch raises the round by one and stays within maxReviewRounds |
| `LifecycleFacts.ResolveFacts` | core/orchestrator.ts:1349-1409 | Resolving a batch declines exactly when there is none, and otherwise keeps all facts unless the item is stuck, parked and its batch due |
| `LifecycleFacts.HandoffFacts` | core/orchestrator.ts:1411-1440 | The feedback handoff declines exactly when no message waits, and never throws, launches, merges or leaves the item merging |
| `LifecycleFacts.NoNewInfoFacts` | core/orchestrator.ts:903-940 | From ci-passed and review-pending a no-new-info signal settles the item without throwing and cannot vouch for an item that was never approved |
| `LifecycleFacts.HandleImplementingFacts` | core/orchestrator.ts:943-1110 | The implementing handler throws exactly on a spurious wake, and else keeps all facts |
| `LifecycleFacts.HandleLaunchingFacts` | core/orchestrator.ts:690-713 | The launching branch keeps all facts; the retry count stays within its budget |
| `LifecycleFacts.HandleCiPendingFacts` | core/orchestrator.ts:1535-1590 | The ci-pending handler keeps all facts through the chained merge evaluation |
| `LifecycleFacts.HandleCiPassedFacts` | core/orchestrator.ts:1593-1639 | The ci-passed handler keeps all facts; it does not claim that CI passed when it merges |
| `LifecycleFacts.HandleCiFailedFacts` | core/orchestrator.ts:1454-1532 | The ci-failed handler keeps all facts but for one branch: the circuit breaker leaves a live worker parked on a stuck item |
| `LifecycleFacts.HandleRebasingFacts` | core/orchestrator.ts:2051-2083 | The rebasing handler keeps all facts |
| `LifecycleFacts.HandleReviewingFacts` | core/orchestrator.ts:1884-2043 | Bounds and gate are kept on every branch of a review; what is posted is the subject of ReviewPosts.PublishesExactly |
| `LifecycleFacts.HandleReviewPendingFacts` | core/orchestrator.ts:1642-1882 | No signal, handoff, batch, CI change or stall in review-pending throws or merges past the gate |
| `LifecycleFacts.HandleMergingFacts` | core/orchestrator.ts:2085-2115 | The merging retry asks for at most one merge and keeps the review as it was, without a second look at the gate |
| `PollFacts.VisitIsTransition` | core/orchestrator.ts:789-834 | The effects on stacked dependents never reach the visited item itself: its visit crashes exactly when its own transition throws, and every other item is unchanged or rolled back to queued |
| `PollFacts.VisitFromCrashes` | core/orchestrator.ts:316-320 | The loop over all items crashes exactly when some item throws, whatever the earlier visits did to it |
| `PollFacts.VisitFromJustified` | core/orchestrator.ts:316-320 | After the loop every merge asked for belongs to one merging item with settled feedback, and nothing was launched |
| `Dependents.DependentsExactly` | core/orchestrator.ts:782-829 | What a visit does to the items stacked on the visited one: when it gets stuck exactly those that have not started go back to the queue, unstacked, and the workers of the others are told to pause; when failed checks run again they are told to go on unless a dependency has merged; nobody else is touched or told |
| `PollFacts.ReevaluateFromFacts` | core/orchestrator.ts:322-330 | The forced re-evaluation never crashes and merges review-pending items only |
| `PollQueues.CanStackExactly` | core/orchestrator.ts:2505-2546 | An item stacks on a base if and only if stacking is on and the base is its one unfinished dependency, in a stackable state and never broken the default branch |
| `Promotions.PromotedExactly` | core/orchestrator.ts:332-350 | Which queued items become ready in a poll: exactly those whose dependencies are reported as met and those whose one open dependency, named once, can carry a stack, on whose branch they are then built; every other item stays as it is |
| `PollQueues.LaunchReadyExactly` | core/orchestrator.ts:2597-2615 | The launcher starts exactly the first free-slot-many ready items in insertion order, asks for one launch each in that order, and fills at most maxInflight slots |
| `PollQueues.FirstIsMinimum` | core/orchestrator.ts:2466-2486 | The kept merge candidate is the strict minimum by unmerged dependency, priority and id |
| `PollQueues.MergeQueueExactly` | core/orchestrator.ts:2461-2497 | The merge queue never crashes; of two or more candidates it keeps the strict minimum, sends every other back to ci-passed, leaves all other items alone and all other actions in order |
| `PollTheorems.PollCrashesExactly` | core/orchestrator.ts:306-359 | A whole poll crashes if and only if some item throws; re-evaluation, promotion, stacking, launch and the merge queue cannot; a poll that does not crash parks sessions only where they may be |
| `PollTheorems.InFlightBound` | core/orchestrator.ts:289-298 | After a poll at most max(maxInflight, slots taken before plus repair pull requests that took one) slots are taken |
| `PollTheorems.PollAsksForOneMerge` | core/orchestrator.ts:354-358 | A poll returns at most one merge; admin is set exactly under bypass, and its item ends merging with no feedback batch or undelivered message |
| `PollTheorems.PollLaunchesExactly` | core/orchestrator.ts:350-352 | The launches of a poll are, in order, exactly the items that went from ready to launching, and none while no work is accepted |
| `PollTheorems.PollKeepsPayloads` | core/orchestrator.ts:306-359 | A poll keeps every payload and lets no item that asks for manual review start merging |
| `PollBounds.PollKeepsBounds` | core/orchestrator.ts:306-359 | A poll keeps every item within its bounds, counted over the log of everything asked for so far |
| `Claims.ClaimsTakeNoSlot` | core/orchestrate-event-loop.ts:1274-1312 | Resolving the launches of a poll through the broker takes no more slots than the poll granted; what it launches is the subject of CrewLaunches.ResolveExactly |
| `CrewLaunches.ResolveExactly` | core/orchestrate-event-loop.ts:1270-1309 | With the broker connected a poll starts exactly the items it answered with first, one answer a launch, that are queued, ready or were about to start: each once, in the order of the answers, and launching; every other item that was about to start is ready again, the other actions keep their order, all other items are as they were |
| `CrewLaunches.DisconnectedExactly` | core/orchestrate-event-loop.ts:1264-1280 | Without the broker nothing starts, and every item that was about to is ready again |
| `Claims.CrewInFlightBound` | core/orchestrate-event-loop.ts:1217-1325 | Poll and crew resolution together stay within the in-flight bound |
| `Claims.ResolveBounded` | core/orchestrate-event-loop.ts:1217-1325 | Putting launches back and launching what was granted keeps every bound of every item |
| `ExecutionFacts.ExecuteLaunchHolds` | core/orchestrator-actions.ts:211-358 | Whatever the pickup check and the worker launch answer, the retry count stays within maxRetries and no bound breaks, also through the catch block |
| `ExecutionEnds.LaunchEndsExactly` | core/orchestrator-actions.ts:211-355 | Where the launch of a launching item ends, for every answer: blocked, tracked by an open pull request, at work with its message delivered, ready again with one retry counted, or stuck; a base that is gone is dropped |
| `ExecutionFacts.ExecuteMergeHolds` | core/orchestrator-actions.ts:361-644 | For all answers a merge keeps the bounds and runs off the table from its home state never; where it ends is the subject of ExecutionEnds.MergeEndsExactly |
| `ExecutionEnds.MergeEndsExactly` | core/orchestrator-actions.ts:361-794 | Where the merge of a merging item ends, for every answer: merged exactly when GitHub says so already, or when it is not stacked on an open item, its base is the default branch or not looked up, and the merge went through; back in ci-passed while stacked on an open item; with the targets of retargets, conflicts, blocked and counted failures, and the merge commit, failure count, base branch and workspace it is left with |
| `ExecutionEnds.MergeRestacksExactly` | core/orchestrator-actions.ts:660-793 | A merge takes exactly the replayed dependents off their stack, and only when it went through; every other item is left alone |
| `ExecutionFacts.MergeFailedHolds` | core/orchestrator-actions.ts:603-611 | A failed merge is counted, and the count reaches maxMergeRetries exactly when the item gets stuck |
| `ExecutionFacts.ExecuteDaemonRebaseHolds` | core/orchestrator-actions.ts:1052-1130 | Daemon rebase, rebaser launch and its circuit breaker keep every bound |
| `ExecutionEnds.RebaseEndsExactly` | core/orchestrator-actions.ts:1052-1110 | Where a rebase request ends: rebased by the daemon, left to a live worker, handed to a rebaser, which is counted, or stuck once the attempts are used up |
| `ExecutionEnds.NoticeEndsExactly` | core/orchestrator-actions.ts:797-831 | A failed check that cannot be told to the worker relaunches it with the order to fix CI and without its session; one that is told changes nothing |
| `ExecutionEnds.DeliveryExactly` | core/orchestrator-actions.ts:942-964 | A message takes the waiting feedback off the item exactly when it reaches the worker, is the one that waits, and the worker was alive; otherwise nothing changes |
| `ExecutionEnds.SessionsExactly` | core/orchestrator-actions.ts:850-1430 | Every other action changes the sessions on record and nothing else: a reviewer or fixer that starts is on record, one that is cleaned up is not, a retry leaves no session behind |
| `ExecutionFacts.ExecuteKeepsBounds` | core/orchestrator.ts:2386-2452 | Executing any action in any state, restacking included, keeps every item within its bounds, takes no slot and leaves terminal items |
| `ExecutionFacts.NeverThrowsAtHome` | core/orchestrator-actions.ts:211-830 | In the state that asks for it no action throws, whatever the outside world answers |
| `ExecutionFacts.DaemonRebaseThrowsExactly` | core/orchestrator-actions.ts:1052-1110 | A rebase request throws exactly when the item cannot get stuck from its state, its attempts are used up and nobody takes the rebase |
| `ExecutionFacts.StalledReviewLeavesHome` | core/orchestrator.ts:1825-1882 | The handler of a stalled review asks for a rebase and starts a review at once; over whole polls see ActionHomes and PollHomes |
| `ActionHomes.PollInPlace` | core/orchestrator.ts:655-834 | At most one action of a poll moves its item, and it finds the item in the state it is at home in, exactly unless the poll recovers a stalled reviewer and nudges as well; rebase requests were due and are on record, and only a verdict changes the approved commit |
| `PollHomes.PollAsksAtHome` | core/orchestrator.ts:306-359 | Over all items: every launch, merge, CI notification and rebase request a poll returns is returned with its item where executing it alone cannot throw, exactly unless it is the rebase request of an item whose stalled reviewer was recovered in the same poll; each such item asks for one, and reviews again, merges or waits to merge; no item gets two requests |
| `ActionHomes.StalledReviewThrowsExactly` | core/orchestrator-actions.ts:1052-1110 | Such a request is executed while the new review runs, or while the item merges when reviews are skipped; it throws exactly when reviews are on, the rebase attempts are used up and neither the daemon nor a live worker takes it; with reviews skipped the same answers get the item stuck |
| `ActionHomes.StalledReviewThrows` | core/orchestrator.ts:1825-1882 | An item, a poll and answers for which it throws |
| `ActionRuns.PollRunCrashesExactly` | core/orchestrate-event-loop.ts:1359-1383 | Executing the actions a poll returned, with its launches resolved through the broker or without a crew, in any order in which merges come after rebase requests, each at most once and with any answers, throws if and only if some item whose stalled reviewer was recovered gets a rebase request that gives up, and either reviews are on, or its merge follows with answers that move a stuck item |
| `ActionRuns.StuckMergeThrowsExactly` | core/orchestrator-actions.ts:361-794 | The merge of a stuck item throws exactly when GitHub merged it, or its base is another one than expected, or the merge failed in a way that is to be tried again |
| `ActionRuns.MergeAfterRebaseThrows` | core/orchestrator.ts:1825-1882 | With reviews skipped: a poll, and answers for its two actions in order, after which the merge throws on a stuck item although GitHub merged it |
| `Run.RunBudgets` | core/orchestrator.ts:1166-1184 | Over any run of polls, executions, commits, changes of the merge strategy, and items added, removed or edited, from an empty orchestrator, one item costs at most maxFixForwardRetries - 1 forward fixers and maxReviewRounds * max(1, maxFixForwardRetries) review launches, is retried at most maxRetries times, and uses up its merge attempts only by getting stuck |
| `Run.RunMergeGate` | core/orchestrator.ts:2328-2372 | In any such run every merging item has a complete review and, unless reviews are skipped, an approve verdict for it was read earlier in the run; it asks for manual review only if an edit of its file said so while it was merging, and merges under the manual strategy only if it was merging when the strategy became manual |
| `Run.RunUnflagged` | core/orchestrator.ts:92-112 | In any such run no item in ci-pending, ci-passed, reviewing, review-pending or merging carries the flag of a CI failure notification |
| `Run.GateAfterStrategy` | core/orchestrator.ts:175-184 | A merging item keeps its gate exactly when the new strategy is not manual; the next poll asks for the merge either way, with the admin flag of the new strategy |
| `Run.GateAfterEdit` | core/orchestrate-event-loop.ts:946-950 | A merging item keeps its gate exactly when the new payload asks for no manual review; the next poll asks for the merge either way |
| `Witnesses.ParkedBatchRun` | core/orchestrator.ts:1460-1470 | Under any retry limit and grace period: a run of one item from an empty orchestrator that executes only actions asked for, each at most as often, and ends with a poll that tries the edge from stuck to ready and throws: the check fails once more than it may, and a comment falls due |
| `Witnesses.SpuriousWakeRun` | core/orchestrator.ts:938-959 | With reviews on: a run of the same kind that ends with a poll that tries the edge from implementing to review-pending and throws: a review asks for changes, and the relaunched worker reports that there is nothing to change |
| `Run.GateAfterSkipReview` | core/orchestrator.ts:192-217 | Switching the review setting keeps the gate of a merging item exactly when reviews go off or a round was launched; the next poll asks for the merge either way |
| `ReviewSwitch.SwitchingOffDrains` | core/orchestrator.ts:192-217 | The first poll after the reviews were switched off ends every running review, cleans its reviewer up, passes its commit unless a verdict came in, and starts no round |
| `ReviewSwitch.SwitchingOnReviews` | core/orchestrator.ts:192-217 | After the reviews were switched on again no item under way that was never reviewed starts merging in the next poll, unless that poll reads its approval |
| `StackChain.WalkUp` | core/orchestrator.ts:2558-2569 | The walk up ends on any links, at an ancestor, and at a root when the links above end |
| `StackChain.WalkDown` | core/orchestrator.ts:2571-2585 | The walk down returns distinct items, each based on the one before, that no further child extends |
| `StackChain.PassesThrough` | core/orchestrator.ts:2571-2585 | With one child each, the chain down from the root is the path of ancestors of the item |
| `StackChain.BuildStackChain` | core/orchestrator.ts:2554-2592 | It terminates on cyclic links and lists exactly the open pull requests of the chain, in its order, with number and title; when the links above the item end and no branch has two children, the chain is the whole path from root to tip and holds the item |
| `TrackedItems.TrackedItem.TransitionBody` | core/orchestrator.ts:655-787 | Interceptors, bookkeeping and the switch, in order |
| `TrackedItems.TrackedItem.TransitionTail` | core/orchestrator.ts:831-833 | A due batch is resolved in whatever state remains |
| `Orchestrator.Orchestrator.TransitionItem` | core/orchestrator.ts:655-834 | The objects after the visit of one item are those of the specification |
| `Orchestrator.Orchestrator.TransitionAll` | core/orchestrator.ts:316-320 | The loop over all objects computes the specified sweep, or throws when it crashes |
| `Orchestrator.Orchestrator.CanStackLaunch` | core/orchestrator.ts:2505-2546 | The in-place loop decides stacking as specified |
| `Orchestrator.Orchestrator.LaunchReadyItems` | core/orchestrator.ts:2597-2615 | The in-place loop launches as specified |
| `Orchestrator.Orchestrator.PrioritizeMergeActions` | core/orchestrator.ts:2461-2497 | The in-place merge queue is the specified one |
| `Orchestrator.Orchestrator.ProcessTransitions` | core/orchestrator.ts:306-359 | The method over the objects refines the specified poll: same items, same actions, an exception exactly when it crashes |
| `Orchestrator.Orchestrator.SetMergeStrategy` | core/orchestrator.ts:175-184 | A change of strategy re-evaluates the waiting items on the next poll |
| `Orchestrator.Orchestrator.SetSkipReview` | core/orchestrator.ts:192-217 | Which items are drained or sent back to review |
| `BrokerFacts.StepFacts` | core/broker-state.ts:77-336 | Every broker step keeps the ownership index (an owner is known and lists the item) and logs exactly what it did to the standing of every item |
| `BrokerEffects.ConnectExactly` | core/broker-state.ts:77-145 | A connect leaves the daemon linked, heard of now and not released, under the name and operator it gave, reports a reconnect exactly when it was away, and touches no item and no other daemon |
| `BrokerEffects.SyncExactly` | core/broker-state.ts:165-217 | After a report every reported item is in the crew with the priority, dependencies and author of its last report; a known one keeps creator, age, claim and completion, a new one is the daemon's own, unclaimed, at the end in the order of the reports; of the others only the open ones of this daemon change and are finished; with exactly these events |
| `BrokerEffects.ClaimExactly` | core/broker-state.ts:219-255 | A known daemon is refused exactly when nothing is free, and otherwise gets the free item that none is preferred to, the first in the order of the crew among equals; nothing else changes |
| `BrokerEffects.CompleteExactly` | core/broker-state.ts:257-283 | A completion is granted exactly to the owner; anybody else changes nothing |
| `BrokerEffects.HeartbeatExactly` | core/broker-state.ts:285-291 | A heartbeat is heard of a known daemon and changes nothing else |
| `BrokerFacts.ReconnectSplits` | core/broker-state.ts:77-145 | A reconnect splits the listed items into disjoint resumed, released and reclaimed ones and leaves the daemon listing exactly what it owns |
| `BrokerFacts.ExpiryFreesAll` | core/broker-state.ts:293-336 | After expiry the daemon owns nothing |
| `BrokerRuns.LogTellsStanding` | core/broker-state.ts:165-305 | In any run the event log of an item determines how it stands |
| `BrokerRuns.ClaimTraces` | core/broker-state.ts:165-305 | In every run the log of an item is a prefix of sync, (claim by d, abandon by d)*, then a claim with its completion or an optional claim with a reconcile completion |
| `BrokerRuns.OneOwnerInRuns` | core/broker-state.ts:219-305 | In the log of every run, between two claims of an item its first owner abandons it, and nothing finished is claimed |
| `BrokerRuns.ClaimPicksFirst` | core/broker-state.ts:219-255 | A claim is refused only when nothing is available, and else grants the first item in insertion order that no available one precedes by author, priority and age |
| `BrokerRuns.Progress` | core/broker-state.ts:68-75 | With acyclic tracked dependencies, open work and nothing claimed, any known daemon is granted a claim |
| `BrokerRuns.TopologicalDrain` | core/broker-state.ts:219-283 | Alternating claim and complete finishes all n open items in exactly n rounds, each after its tracked dependencies |
| `BrokerTiming.CheckExactly` | core/broker-state.ts:307-336 | One heartbeat check in closed form, for every daemon and everything it owns |
| `BrokerTiming.AbandonedAfterGrace` | core/broker-state.ts:293-336 | In any run an item is abandoned only by a check more than the grace period after the last disconnect of its owner, with no connect since |
| `BrokerTiming.HeardInRuns` | core/broker-state.ts:77-163 | In every such run a known daemon has a stamp exactly when its socket is gone, none from the future, and once released owns nothing |
| `BrokerTiming.SilentDaemonOwnsNothing` | core/broker-state.ts:307-336 | In every run from the empty broker without restarts and with claims over live sockets only, a daemon silent since h owns nothing by h + timeout + grace + 2 delta when checks run every delta |
| `BrokerTiming.BeatingKeepsItems` | core/broker-state.ts:285-336 | Over any operations a daemon that has its socket and is heard of in time stays linked and keeps what it owns until it is completed |
| `BrokerTiming.ReleasedKeepsClaim` | core/broker-state.ts:219-305 | In every run, restarts included, a released daemon that owns an item again keeps it through every later step until the item is completed or the daemon connects; checks alone never take it |
| `BrokerTiming.LateClaimIsKept` | core/broker-state.ts:219-226 | Connect, sync, disconnect, a check after the grace period, and a claim without a socket: a run after which no number of checks frees the item |
| `BrokerTiming.RestartNeverExpires` | core/broker-store.ts:170-195 | In every run, a daemon that was linked when the broker restarted is never released until it connects again: no step abandons an item of it and no check takes one |
| `BrokerTiming.RestartStrands` | core/broker-store.ts:170-195 | Connect, sync, claim, restart: a run that leaves a daemon behind with an item |
| `BrokerTiming.ExpiresExactly` | core/broker-state.ts:307-336 | The daemons that can ever be released by silence are exactly those with a socket or a stamp |
| `BrokerState.CrewState.IsWorkItemAvailable` | core/broker-state.ts:68-75 | Available exactly when unclaimed, not completed, and every tracked dependency is completed |
| `BrokerState.CrewState.ConnectDaemon` | core/broker-state.ts:77-145 | Join, refresh or reconnect with the three-way split |
| `BrokerState.CrewState.DisconnectDaemon` | core/broker-state.ts:147-163 | The socket goes and the stamp is set, once |
| `BrokerState.CrewState.SyncCrewItems` | core/broker-state.ts:165-217 | The in-place loops compute the specified report and its events; what that makes of every item is the subject of BrokerEffects.SyncExactly |
| `BrokerState.CrewState.ClaimNextWorkItem` | core/broker-state.ts:219-255 | The grant and both sides of the ownership index |
| `BrokerState.CrewState.CompleteWorkItem` | core/broker-state.ts:257-283 | Only the owner completes |
| `BrokerState.CrewState.RecordHeartbeat` | core/broker-state.ts:285-291 | Only known daemons are heard |
| `BrokerState.CrewState.ReleaseDaemonWorkItems` | core/broker-state.ts:293-305 | Exactly the owned listed items are freed, one event each |
| `BrokerState.CrewState.CheckCrewHeartbeats` | core/broker-state.ts:307-336 | The loop over the daemons computes the specified check |
| `BrokerStatus.BuildCrewStatusUpdate` | core/broker-state.ts:338-375 | Available, claimed, completed and blocked items partition the work, and the listed claims are exactly what daemons own |
| `BrokerStatus.StatesMean` | core/broker-state.ts:338-375 | Done, in progress, queued and blocked tell apart what is completed, claimed, free, and waiting for a tracked dependency |
| `BrokerStore.StoreIsRecency` | core/broker-store.ts:69-121 | For limit >= 1 and any accesses the store holds the last limit codes of the unbounded recency list, in order, the created one among them |
| `BrokerStore.InMemoryBrokerStore.GetCrew` | core/broker-store.ts:82-89 | A hit moves the crew to the end, a miss changes nothing |
| `BrokerStore.InMemoryBrokerStore.CreateCrew` | core/broker-store.ts:91-103 | The crew is found or made, and only the oldest others are evicted |
| `BrokerStore.InMemoryBrokerStore.EvictIfNeeded` | core/broker-store.ts:114-120 | The last limit crews stay, with their contents |
| `BrokerStore.FileBrokerStore.CreateCrew` | core/broker-store.ts:242-254 | New crews are refused exactly at capacity, known ones never |
| `BrokerStore.Deserialize` | core/broker-store.ts:170-195 | The two loops load items and daemons in order, the last of a repeated key winning |
| `BrokerStore.StoreRoundTrip` | core/broker-store.ts:153-195 | Storing and loading a crew loses the sockets and nothing else |
| `TokenBucket.Throttle.Refill` | core/request-queue.ts:130-148 | The refill with its budget block and its same-tick shortcut |
| `TokenBucket.Throttle.UpdateBudget` | core/request-queue.ts:74-87 | A report sets tokens, budget and refill time as specified; what it grants and refuses is the subject of TokenBounds.ReportGrants and ReportRefuses |
| `TokenBucket.Throttle.TryAcquire` | core/request-queue.ts:93-108 | One turn of a caller: granted exactly when the refill leaves a token |
| `TokenBucket.Throttle.IsThrottled` | core/request-queue.ts:111-114 | Throttled exactly when a turn would not be granted |
| `TokenBucket.Throttle.Acquire` | core/request-queue.ts:93-108 | A lone caller returns after at most one wait per started minute until the reset and one more, or one wait without a block |
| `TokenBounds.StaysValid` | core/request-queue.ts:74-148 | Tokens stay between 0 and the burst under any interleaving, whatever the clock does |
| `TokenBounds.WindowBound` | core/request-queue.ts:74-148 | With a monotone clock any window of t seconds with k reports grants at most burst (1 + k) + rate t requests |
| `TokenBounds.HardBudget` | core/request-queue.ts:130-148 | When the clock advances from turn to turn at most the reported remaining requests are granted before the reset |
| `TokenBounds.ReportGrants` | core/request-queue.ts:74-87 | After a report of requests left, whatever the bucket held and whatever the clock does, the next turns are all granted, as many as are left, up to the burst |
| `TokenBounds.ReportNeverLowers` | core/request-queue.ts:79-83 | Such a report takes no token away, and tops the bucket up to what is left or to the burst |
| `TokenBounds.ReportRefuses` | core/request-queue.ts:74-148 | After a report of nothing left no turn is granted before the reset, whatever the clock does |
| `TokenBounds.GrantsAfterReset` | core/request-queue.ts:130-148 | From the reset on a turn is granted again as soon as a token is earned |
| `TokenBounds.GrantedBeyondBudget` | core/request-queue.ts:130-132 | A used-up budget is exceeded exactly in the tick of the last refill |
| `TokenBounds.SameTickOverrun` | core/request-queue.ts:130-132 | Two turns in one tick are granted on a budget of one |
| `RequestQueue.PrioritySemaphore.Acquire` | core/request-queue.ts:188-197 | A slot is taken exactly while one is free, and else the caller queues behind all others |
| `RequestQueue.PrioritySemaphore.Release` | core/request-queue.ts:200-219 | The slot passes to the best waiter, or is freed |
| `RequestQueue.WakesFirstOfBestClass` | core/request-queue.ts:200-219 | The woken waiter is the earliest of the best priority class |
| `RequestQueue.StepSound` | core/request-queue.ts:178-230 | Slots stay in bound, requests wait only while all are taken, and every slot belongs to one request |
| `RequestQueue.NothingLost` | core/request-queue.ts:276-300 | No step loses a waiting, holding or running request, and a finish with waiters wakes one |
| `RequestQueue.QueueAccounts` | core/request-queue.ts:276-375 | Over any run the running requests stay within the limit and the counters equal the log |
| `Comments.StripJsonComments` | core/config.ts:354-393 | The nested loops emit what the reference scanner emits |
| `Comments.StripJsoncComments` | core/opencode-config.ts:113-166 | The single loop emits what the reference scanner with single quotes emits |
| `Comments.KeepsAllButComments` | core/config.ts:344-352 | On any text given as plain characters, literals and comments exactly the non-comment parts stay, newlines after line comments included |
| `Comments.EveryTextHasParts` | core/config.ts:354-393 | Every text is built from such parts, unclosed literals and comments included |
| `Comments.ScannersAgree` | core/opencode-config.ts:107-112 | The two scanners agree on every text without a single quote outside strings and comments |
| `Comments.SingleQuotesDiffer` | core/opencode-config.ts:137-142 | A text with such a quote on which they differ |
| `Comments.StripTwice` | core/config.ts:354-393 | Both scanners are idempotent on every text |
| `Reconcile.ArraysEqualSorted` | core/orchestrate-event-loop.ts:148-156 | Equal exactly as multisets |
| `Reconcile.DiffWorkItem` | core/orchestrate-event-loop.ts:165-203 | Names exactly the structural fields that changed, each once; nothing exactly when the payloads match up to order |
| `Reconcile.Watch.ReconcileWatchItems` | core/orchestrate-event-loop.ts:899-951 | The lists of new, removed and edited items are applied as specified; an unchanged report means unchanged items |
| `Reconcile.PassConverges` | core/orchestrate-event-loop.ts:899-951 | With unique scanned ids a pass leaves exactly the scanned ids and those of preserved items, payloads match up to order, and tracked items keep everything else |
| `Reconcile.PassTakesOver` | core/orchestrate-event-loop.ts:899-951 | A tracked item takes over the payload of its file exactly when the two differ in a structural field, lists up to order, and keeps everything else; a new file becomes an item that starts out |
| `Reconcile.LossOfFile` | core/orchestrate-event-loop.ts:899-951 | A tracked item whose file is gone survives a pass, as it was, exactly when it is terminal or past its merge |
| `Reconcile.SecondPassIsQuiet` | core/orchestrate-event-loop.ts:899-951 | A second pass over the same files finds nothing to do and changes nothing |

## Left out

- Run.RunBudgets: limits and the review setting do not change during the run, and ids of removed items are not used again, because a changed limit or a reused id would change what the count is compared with.
- Run.RunMergeGate: the review setting does not change during the run; Run.GateAfterSkipReview shows what a change does.
- ActionRuns.PollRunCrashesExactly: the actions of one poll, executed one after another; the request queue starts the merge, at most one, after the immediate actions, which is why merges come after rebase requests.
- ExecutionFacts.ExecuteMergeHolds: an exception thrown by gh or git inside `executeMerge` is not an answer; failures they report are.
- TokenBucket.Throttle.Acquire: one caller alone, on a clock that has not run behind the last refill; sleeps may take arbitrarily longer than asked. Interleaved callers are the subject of TokenBounds, as single turns.
- PollQueues.FirstIsMinimum: the source sorts and takes the first; the model scans for the first minimum, which is the same element for a total order and any stable sort.
- BrokerStore.StoreIsRecency: limits of at least 1; the source's limit comes from its caller and 0 would evict the crew just created.
- Reconcile.Watch.ReconcileWatchItems: scanned ids are unique; two files with one id make the source add, or replace by, the last of them, which the model does not follow.
- Reconcile.DiffWorkItem: the names of the changed fields only; the lists of dependencies before and after, which go to the log, are left out.
- BrokerStatus.BuildCrewStatusUpdate: counts, claims and connection states only; daemon names and the list of remote items are copied fields.
- RebaseCooldown.RequestsKeepCooldown: one direction; how far apart two requests are after the record was cleared depends on the polls in between.
- Reconcile.PassConverges: sorted equality sorts copies by insertion; only the order of equal ids is not modelled, and they are equal.
- git, gh, the terminal multiplexer, headless processes, WebSocket transport, file and JSON I/O, logging and telemetry: their answers are parameters, their effects outside the modelled fields are not modelled.
- Terminal UI, prompts, status rendering, pull request comments and message texts: user interface; messages are kept apart only by kind.
- HMAC hashes and UUIDs: opaque; no modelled step depends on their shape.
- `core/lock.ts` and `core/repo-ref.ts`: not part of this model.
- `core/reconstruct.ts` and daemon state files: field copying; `hydrateState` appears only where broker claims use it.
- Work item parsing, `readyIds` and the snapshot builder: inputs of a poll.
- GraceWindows.GraceExactly: no user calls `extendTimeout` between the two polls, which would move the deadline on record.
- `getNextTool`, worktree paths and tool names would only add easy members.
- The drain promise and the budget utilisation figures of the request queue, and the filter that hides remote writes from other daemons in the event loop: easy members.
- The order of the comments inside a feedback batch: presentation of the message only.
