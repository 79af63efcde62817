/** The client's arithmetic on heartbeat delays: when to renew, and when to retry before expiry. */
module HeartbeatTiming {
  import opened Wrappers

  const MIN_THROTTLED_RETRY_MS: int := 1_000
  const MAX_TIMER_MS: int := 2_147_483_647
  const MAX_SESSION_TTL_SECONDS: int := 86_400

  /** Checked configuration: all three are positive integers a timer can hold. */
  datatype Config = Config(requestedIntervalMs: int, timeoutMs: int, maxRetries: int)

  ghost predicate Checked(cfg: Config)
  {
    && 1 <= cfg.requestedIntervalMs <= MAX_TIMER_MS
    && 1 <= cfg.timeoutMs <= MAX_TIMER_MS
    && 1 <= cfg.maxRetries <= MAX_TIMER_MS
  }

  /** Session lifetimes the client accepts from the server. */
  predicate AcceptedTtl(ttlSeconds: int)
  {
    1 <= ttlSeconds <= MAX_SESSION_TTL_SECONDS
  }

  function RenewalSafety(ttlSeconds: int): int
  {
    Min(1_000, Max(1, ttlSeconds * 1_000 / 10))
  }

  /** Two full requests and the safety margin. */
  function RetryBudget(cfg: Config, ttlSeconds: int): int
  {
    cfg.timeoutMs * 2 + RenewalSafety(ttlSeconds)
  }

  function HeartbeatInterval(cfg: Config, ttlSeconds: int): int
  {
    var ttlMs := ttlSeconds * 1_000;
    var budget := RetryBudget(cfg, ttlSeconds);
    var retryAware := Max(1, if ttlMs > budget then ttlMs - budget else ttlMs / 3);
    Min(cfg.requestedIntervalMs, Min(Max(1, ttlMs * 2 / 3), retryAware))
  }

  function RetryDelay(cfg: Config, desired: int, expiresAt: Option<int>, now: int): int
  {
    if expiresAt.None? then desired
    else
      var remaining := expiresAt.value - now;
      var safety := Min(Max(0, remaining - 1), cfg.timeoutMs + 1_000);
      Min(desired, Max(1, remaining - safety))
  }

  /** What a Retry-After header may hold (section 10.2.3 of RFC 9110). */
  datatype RetryAfter = Absent | Seconds(seconds: nat) | Date(at: int) | Unreadable

  function RequestedRetry(header: RetryAfter, interval: int, now: int): int
  {
    match header
    case Absent => Max(MIN_THROTTLED_RETRY_MS, interval)
    case Seconds(seconds) => Min(MAX_TIMER_MS, Max(MIN_THROTTLED_RETRY_MS, seconds * 1_000))
    case Date(at) => Min(MAX_TIMER_MS, Max(MIN_THROTTLED_RETRY_MS, at - now))
    case Unreadable => Max(MIN_THROTTLED_RETRY_MS, interval)
  }

  /** When the heartbeat after a success is answered, given how long the two requests take. */
  function NextFinish(start: int, took: int, interval: int, nextTook: int): int
  {
    start + took + interval + nextTook
  }

  /** Whatever the two requests take within the timeout, the safety margin before expiry is kept. */
  ghost predicate AlwaysInTime(cfg: Config, ttlSeconds: int)
  {
    forall start, took, nextTook {:trigger NextFinish(start, took, HeartbeatInterval(cfg, ttlSeconds), nextTook)}
      | 0 <= took <= cfg.timeoutMs && 0 <= nextTook <= cfg.timeoutMs ::
      NextFinish(start, took, HeartbeatInterval(cfg, ttlSeconds), nextTook) + RenewalSafety(ttlSeconds)
      <= start + ttlSeconds * 1_000
  }

  lemma IntervalBounds(cfg: Config, ttlSeconds: int)
    requires Checked(cfg) && AcceptedTtl(ttlSeconds)
    ensures 1 <= HeartbeatInterval(cfg, ttlSeconds) <= cfg.requestedIntervalMs
    ensures HeartbeatInterval(cfg, ttlSeconds) * 3 <= ttlSeconds * 2_000
    ensures 100 <= RenewalSafety(ttlSeconds) <= 1_000
    ensures ttlSeconds * 1_000 > RetryBudget(cfg, ttlSeconds) ==>
              HeartbeatInterval(cfg, ttlSeconds) + RetryBudget(cfg, ttlSeconds) <= ttlSeconds * 1_000
  {
  }

  /** The renewal bound holds for every timing exactly when the lifetime exceeds the retry budget. */
  lemma InTimeIffBudgetFits(cfg: Config, ttlSeconds: int)
    requires Checked(cfg) && AcceptedTtl(ttlSeconds)
    ensures AlwaysInTime(cfg, ttlSeconds) <==> ttlSeconds * 1_000 > RetryBudget(cfg, ttlSeconds)
  {
    IntervalBounds(cfg, ttlSeconds);
    if ttlSeconds * 1_000 <= RetryBudget(cfg, ttlSeconds) {
      assert NextFinish(0, cfg.timeoutMs, HeartbeatInterval(cfg, ttlSeconds), cfg.timeoutMs)
             + RenewalSafety(ttlSeconds) > ttlSeconds * 1_000;
    }
  }

  /** A clamped retry starts before the session expires exactly when two milliseconds are left. */
  lemma RetryStartsBeforeExpiry(cfg: Config, desired: int, expiresAt: int, now: int)
    requires Checked(cfg) && desired >= 1
    ensures now + RetryDelay(cfg, desired, Some(expiresAt), now) < expiresAt <==> expiresAt - now >= 2
    ensures 1 <= RetryDelay(cfg, desired, Some(expiresAt), now) <= desired
  {
  }

  /** With more than a timeout and a second left, it is also answered a second before expiry. */
  lemma RetryFinishesBeforeExpiry(cfg: Config, desired: int, expiresAt: int, now: int, took: int)
    requires Checked(cfg) && desired >= 1 && 0 <= took <= cfg.timeoutMs
    requires expiresAt - now > cfg.timeoutMs + 1_000
    ensures now + RetryDelay(cfg, desired, Some(expiresAt), now) + took + 1_000 <= expiresAt
  {
  }

  /** The safety margin is a tenth of the lifetime, and at most a second. */
  lemma SafetyIsLargest(ttlSeconds: int, d: int)
    requires AcceptedTtl(ttlSeconds)
    ensures d <= RenewalSafety(ttlSeconds) <==> d <= 1_000 && 10 * d <= ttlSeconds * 1_000
  {
  }

  /**
   The interval is the longest one that is at most the requested one and two thirds of the lifetime,
   and that leaves two timeouts and the margin or, where those do not fit, two thirds of the lifetime.
   */
  lemma IntervalIsLargest(cfg: Config, ttlSeconds: int, d: int)
    requires Checked(cfg) && AcceptedTtl(ttlSeconds)
    ensures
      var ttlMs := ttlSeconds * 1_000;
      var reserve := cfg.timeoutMs + cfg.timeoutMs + RenewalSafety(ttlSeconds);
      d <= HeartbeatInterval(cfg, ttlSeconds) <==>
        && d <= cfg.requestedIntervalMs && 3 * d <= 2 * ttlMs
        && (if ttlMs > reserve then d + reserve <= ttlMs else 3 * d <= ttlMs)
  {
  }

  /**
   A retry waits as long as asked, but no longer than leaves a timeout and a second before expiry,
   and at least a millisecond.
   */
  lemma RetryIsLargest(cfg: Config, desired: int, expiresAt: Option<int>, now: int, d: int)
    requires Checked(cfg) && desired >= 1 && d >= 1
    ensures d <= RetryDelay(cfg, desired, expiresAt, now) <==>
              d <= desired
              && (expiresAt.Some? && d > 1 ==> now + d + cfg.timeoutMs + 1_000 <= expiresAt.value)
  {
  }

  /** A readable Retry-After is honoured to the millisecond within a second and what a timer can hold. */
  lemma RequestedRetryIsExact(header: RetryAfter, interval: int, now: int)
    ensures
      var requested := RequestedRetry(header, interval, now);
      if header.Absent? || header.Unreadable? then
        requested >= 1_000 && requested >= interval && (requested == 1_000 || requested == interval)
      else
        var asked := if header.Seconds? then 1_000 * header.seconds else header.at - now;
        && 1_000 <= requested <= 2_147_483_647
        && (1_000 <= asked <= 2_147_483_647 ==> requested == asked)
        && (asked < 1_000 ==> requested == 1_000)
        && (asked > 2_147_483_647 ==> requested == 2_147_483_647)
  {
  }
}
