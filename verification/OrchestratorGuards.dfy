/** Temporal predicates of the handlers (core/orchestrator-guards.ts). */
module OrchestratorGuards {
  import opened OrchestratorTypes

  predicate IsCiFailTrustworthy(ciPendingSince: Time, now: int, graceMs: int) {
    !ciPendingSince.At? || now - ciPendingSince.ms >= graceMs
  }

  predicate IsHeartbeatActive(heartbeatAt: Time, now: int, timeoutMs: int) {
    heartbeatAt.At? && now - heartbeatAt.ms < timeoutMs
  }

  predicate IsEventFresherThan(eventTime: Time, baseline: int) {
    eventTime.At? && eventTime.ms > baseline
  }

  /** `!==` on the raw fields: an undefined commit time differs from a recorded `null`. */
  predicate ShouldRenotifyCiFailure(lastCommitTime: Time, notifiedAt: Time) {
    lastCommitTime != notifiedAt
  }

  /** isActivityTimedOut, isLaunchTimedOut and isMergeCiGracePeriodExpired are the same comparison. */
  predicate TimedOut(baseline: int, now: int, timeoutMs: int) {
    now - baseline > timeoutMs
  }

  predicate IsCiFixAckTimedOut(notifyWallAt: int, heartbeatAt: Time, now: int, timeoutMs: int) {
    var heartbeat := if heartbeatAt.At? then heartbeatAt.ms else 0;
    heartbeat <= notifyWallAt && now - notifyWallAt > timeoutMs
  }

  predicate IsRebaseStale(lastNudgeAt: Time, now: int, staleMs: int) {
    !lastNudgeAt.At? || now - lastNudgeAt.ms >= staleMs
  }

  /** `a ?? b` on timestamps. */
  function OrTime(a: Time, b: Time): Time {
    if a.At? then a else b
  }

  /** `a ?? b` on references. */
  function OrRef(a: Ref, b: Ref): Ref {
    if a.Ref? then a else b
  }
}
