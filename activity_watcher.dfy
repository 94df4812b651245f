/**
 * The idle detector of devtrackr-plugin/src/activityWatcher.ts. The same rule (and the same
 * threshold) is used by the time-accounting state machine of extension.ts, which imports
 * `Idle` and `IdleThreshold` from here.
 */
module ActivityWatcher {

  /** Milliseconds of silence after which the user counts as idle (60 seconds). */
  const IdleThreshold: int := 60 * 1000

  /** Idle at `now` when strictly more than the threshold has passed since the last input. */
  predicate Idle(lastActivity: int, now: int)
  {
    now - lastActivity > IdleThreshold
  }

  /** Exactly the threshold is not idle; one millisecond more is. */
  lemma ThresholdIsStrict(lastActivity: int)
    ensures !Idle(lastActivity, lastActivity + IdleThreshold)
    ensures Idle(lastActivity, lastActivity + IdleThreshold + 1)
  {
  }

  /** Right after an input at `t`, no instant up to `t + IdleThreshold` is idle. */
  lemma NotIdleWithinThreshold(t: int, t': int)
    requires t' - t <= IdleThreshold
    ensures !Idle(t, t')
  {
  }

  /** With no input in between, idleness persists: once idle, idle at every later instant. */
  lemma IdleIsPersistent(lastActivity: int, t: int, t': int)
    requires Idle(lastActivity, t) && t <= t'
    ensures Idle(lastActivity, t')
  {
  }

  /** The module-level `lastActivity` of activityWatcher.ts, as an object. */
  class Watcher {
    var lastActivity: int

    /** Module load: `lastActivity` starts at the load time. */
    constructor (now: int)
      ensures lastActivity == now
    {
      lastActivity := now;
    }

    /** `resetActivityTimer`: records an input at `now`. */
    method ResetActivityTimer(now: int)
      modifies this
      ensures lastActivity == now
      ensures !IsIdle(now) && forall t' :: t' - now <= IdleThreshold ==> !Idle(lastActivity, t')
    {
      lastActivity := now;
    }

    /** `isIdle`: a read of `lastActivity` that changes nothing. */
    function IsIdle(now: int): (idle: bool)
      reads this
      ensures idle <==> Idle(lastActivity, now)
    {
      now - lastActivity > IdleThreshold
    }
  }
}
