/**
 The SDK client as the event handlers that run between two awaits. Calls of the application,
 answers of the server, the heartbeat timer and the queued fatal cleanup may come in any
 order; event listeners may deactivate the client from inside a handler.
 */
module LicenseClient {
  import opened Wrappers
  import opened HeartbeatTiming

  datatype Phase = Idle | Activating | Active | Deactivating | Deactivated

  /** The shared activation promise. */
  datatype Activation = NotCalled | Pending(startedAt: int) | Rejected | Resolved

  datatype Deactivation = NotStarted | Waiting | Releasing | Finished

  datatype Request = ToActivate | ToHeartbeat(token: string) | ToUsage(token: string) | ToRelease(token: string)

  /** A token the server issued in answer to a request sent at `startedAt`. */
  datatype Grant = Grant(token: string, ttlSeconds: int, startedAt: int)

  /**
   `timer` holds the time the armed timer is due, `heartbeat` the time the open heartbeat was
   sent; `sent` and `received` record the requests sent and the tokens issued so far.
   */
  datatype Client = Client(
    phase: Phase,
    activation: Activation,
    timer: Option<int>,
    heartbeat: Option<int>,
    usage: nat,
    token: Option<string>,
    expiresAt: Option<int>,
    interval: int,
    strikes: nat,
    throttles: nat,
    protectedRetry: bool,
    fatal: bool,
    cleanupQueued: bool,
    deactivation: Deactivation,
    sent: seq<Request>,
    received: seq<Grant>)

  /** How a heartbeat ended: 5xx, network errors and unreadable answers are all failures. */
  datatype Answer =
    | Success(token: string, ttlSeconds: int)
    | Throttled(header: RetryAfter)
    | Refused
    | Failure

  function Fresh(cfg: Config): Client
  {
    Client(Idle, NotCalled, None, None, 0, None, None, cfg.requestedIntervalMs, 0, 0, false, false, false,
           NotStarted, [], [])
  }

  // ---------------------------------------------------------------- shared pieces

  function Deactivate(c: Client): Client
  {
    if c.deactivation.NotStarted? then c.(phase := Deactivating, timer := None, deactivation := Waiting) else c
  }

  /** An event is emitted; `stops` when a listener deactivates the client. */
  function Emit(c: Client, stops: bool): Client
  {
    if stops then Deactivate(c) else c
  }

  function Fatal(c: Client): Client
  {
    if c.fatal then c else c.(fatal := true, cleanupQueued := true)
  }

  function Schedule(c: Client, delay: int, now: int): Client
  {
    if c.phase.Active? then c.(timer := Some(now + delay)) else c
  }

  function Issued(cfg: Config, c: Client, token: string, ttlSeconds: int, startedAt: int): Client
  {
    c.(token := Some(token), expiresAt := Some(startedAt + ttlSeconds * 1_000),
    interval := HeartbeatInterval(cfg, ttlSeconds), received := c.received + [Grant(token, ttlSeconds, startedAt)])
  }

  function Closed(c: Client): Client
  {
    c.(token := None, expiresAt := None, phase := Deactivated, deactivation := Finished)
  }

  // ---------------------------------------------------------------- handlers

  function CallActivate(c: Client, now: int): Client
  {
    if c.phase.Deactivating? || c.phase.Deactivated? || c.phase.Active? || !c.activation.NotCalled? then c
    else c.(phase := Activating, activation := Pending(now), sent := c.sent + [ToActivate])
  }

  /** A readable answer; one with a lifetime outside the accepted range is a failed activation instead. */
  function ActivationAnswered(cfg: Config, c: Client, token: string, ttlSeconds: int, now: int, stops: bool): Client
  {
    if !c.activation.Pending? || !AcceptedTtl(ttlSeconds) then c
    else
      var issued := Issued(cfg, c, token, ttlSeconds, c.activation.startedAt);
      if !c.phase.Activating? then issued.(activation := Rejected)
      else Schedule(Emit(issued.(phase := Active, activation := Resolved), stops), issued.interval, now)
  }

  function ActivationFailed(c: Client, stops: bool): Client
  {
    if !c.activation.Pending? then c
    else
      var told := Emit(c.(activation := Rejected), stops);
      if told.phase.Activating? then told.(phase := Idle) else told
  }

  /** The rejection handler that lets a failed activation be retried. */
  function ForgetActivation(c: Client): Client
  {
    if c.activation.Rejected? && c.phase.Idle? then c.(activation := NotCalled) else c
  }

  function CallConsume(c: Client): Client
  {
    if !c.phase.Active? || c.token.None? then c
    else c.(usage := c.usage + 1, sent := c.sent + [ToUsage(c.token.value)])
  }

  function UsageAnswered(c: Client, rejected: bool, isFatal: bool, stops: bool): Client
  {
    if c.usage == 0 then c
    else
      var told := Emit(c.(usage := c.usage - 1), rejected && stops);
      if rejected && isFatal then Fatal(told) else told
  }

  function TimerFires(c: Client, now: int): Client
  {
    if c.timer.None? then c
    else
      var fired := c.(timer := None);
      if !c.phase.Active? || c.token.None? then fired
      else fired.(heartbeat := Some(now), sent := c.sent + [ToHeartbeat(c.token.value)])
  }

  function RecordFailure(cfg: Config, c: Client, stops: bool): Client
  {
    if !c.phase.Active? then c
    else
      var told := Emit(c.(strikes := c.strikes + 1), stops);
      if told.strikes >= cfg.maxRetries then Fatal(told) else told
  }

  /** The `finally` of a heartbeat: no further heartbeat once a fatal cleanup is queued. */
  function Continue(c: Client, delay: int, now: int): Client
  {
    if c.fatal then c else Schedule(c, delay, now)
  }

  /** A throttled retry is clamped when the session would expire before the requested delay is over. */
  predicate IsClamped(cfg: Config, c: Client, header: RetryAfter, now: int)
  {
    var requested := RequestedRetry(header, c.interval, now);
    RetryDelay(cfg, requested, c.expiresAt, now) < requested
  }

  /** A 429: one clamped retry is allowed between two successes, and at most `maxRetries` in all. */
  function ThrottleCounted(cfg: Config, c: Client, clamped: bool, stops: bool): Client
  {
    var counted := c.(throttles := c.throttles + 1);
    if counted.throttles > cfg.maxRetries || (clamped && c.protectedRetry) then Fatal(Emit(counted, stops))
    else Emit(counted.(protectedRetry := c.protectedRetry || clamped), stops)
  }

  function RecordThrottle(cfg: Config, c: Client, header: RetryAfter, now: int, stops: bool): Client
  {
    ThrottleCounted(cfg, c, IsClamped(cfg, c, header, now), stops)
  }

  function Renew(cfg: Config, c: Client, token: string, ttlSeconds: int, startedAt: int, stops: bool): Client
  {
    var issued := Issued(cfg, c, token, ttlSeconds, startedAt)
                  .(strikes := 0, throttles := 0, protectedRetry := false);
    if issued.phase.Active? then Emit(issued, stops) else issued
  }

  predicate IsSuccess(answer: Answer)
  {
    answer.Success? && AcceptedTtl(answer.ttlSeconds)
  }

  /** The answer of a heartbeat sent at `startedAt`, up to the `finally`. */
  function Settle(cfg: Config, c: Client, answer: Answer, startedAt: int, now: int, stops: bool): Client
  {
    if IsSuccess(answer) then Renew(cfg, c, answer.token, answer.ttlSeconds, startedAt, stops)
    else if answer.Throttled? then RecordThrottle(cfg, c, answer.header, now, stops)
    else if answer.Refused? then Fatal(Emit(c, stops))
    else RecordFailure(cfg, c, stops)
  }

  /** The delay before the next heartbeat, seen from the client that had sent the answered one. */
  function NextDelay(cfg: Config, c: Client, answer: Answer, now: int): int
  {
    if IsSuccess(answer) then HeartbeatInterval(cfg, answer.ttlSeconds)
    else if answer.Throttled? then
      RetryDelay(cfg, RequestedRetry(answer.header, c.interval, now), c.expiresAt, now)
    else if answer.Refused? then c.interval
    else RetryDelay(cfg, c.interval, c.expiresAt, now)
  }

  function HeartbeatAnswered(cfg: Config, c: Client, answer: Answer, now: int, stops: bool): Client
  {
    if c.heartbeat.None? then c
    else
      Continue(Settle(cfg, c.(heartbeat := None), answer, c.heartbeat.value, now, stops),
               NextDelay(cfg, c, answer, now), now)
  }

  function RunCleanup(c: Client): Client
  {
    if c.cleanupQueued then Deactivate(c.(cleanupQueued := false)) else c
  }

  predicate Outstanding(c: Client)
  {
    c.activation.Pending? || c.heartbeat.Some? || c.usage > 0
  }

  /** Deactivation goes on once the activation, the heartbeat and every usage report have settled. */
  function BeginRelease(c: Client): Client
  {
    if !c.deactivation.Waiting? || Outstanding(c) then c
    else if c.token.None? then Closed(c)
    else c.(deactivation := Releasing, sent := c.sent + [ToRelease(c.token.value)])
  }

  function ReleaseAnswered(c: Client): Client
  {
    if c.deactivation.Releasing? then Closed(c) else c
  }

  // ---------------------------------------------------------------- the object

  /** The client object; each method is one handler, and `sent` and `received` are its history. */
  class SdkClient {
    const cfg: Config
    var phase: Phase
    var activation: Activation
    var timer: Option<int>
    var heartbeat: Option<int>
    var usage: nat
    var token: Option<string>
    var expiresAt: Option<int>
    var interval: int
    var strikes: nat
    var throttles: nat
    var protectedRetry: bool
    var fatal: bool
    var cleanupQueued: bool
    var deactivation: Deactivation
    ghost var sent: seq<Request>
    ghost var received: seq<Grant>

    ghost function Contents(): Client
      reads this
    {
      Client(phase, activation, timer, heartbeat, usage, token, expiresAt, interval, strikes, throttles,
             protectedRetry, fatal, cleanupQueued, deactivation, sent, received)
    }

    constructor (cfg: Config)
      ensures this.cfg == cfg && Contents() == Fresh(cfg)
    {
      this.cfg := cfg;
      phase, activation, deactivation := Idle, NotCalled, NotStarted;
      timer, heartbeat, usage := None, None, 0;
      token, expiresAt, interval := None, None, cfg.requestedIntervalMs;
      strikes, throttles, protectedRetry := 0, 0, false;
      fatal, cleanupQueued := false, false;
      sent, received := [], [];
    }

    method Activate(now: int)
      modifies this
      ensures Contents() == CallActivate(old(Contents()), now)
    {
      if phase.Deactivating? || phase.Deactivated? {
        return;
      }
      if phase.Active? || !activation.NotCalled? {
        return;
      }
      phase := Activating;
      activation := Pending(now);
      sent := sent + [ToActivate];
    }

    method ReceiveSession(grantedToken: string, ttlSeconds: int, startedAt: int)
      modifies this
      ensures Contents() == Issued(cfg, old(Contents()), grantedToken, ttlSeconds, startedAt)
    {
      token := Some(grantedToken);
      expiresAt := Some(startedAt + ttlSeconds * 1_000);
      interval := HeartbeatInterval(cfg, ttlSeconds);
      received := received + [Grant(grantedToken, ttlSeconds, startedAt)];
    }

    method FinishActivation(grantedToken: string, ttlSeconds: int, now: int, stops: bool)
      modifies this
      ensures Contents() == ActivationAnswered(cfg, old(Contents()), grantedToken, ttlSeconds, now, stops)
    {
      if !activation.Pending? || !AcceptedTtl(ttlSeconds) {
        return;
      }
      ReceiveSession(grantedToken, ttlSeconds, activation.startedAt);
      if !phase.Activating? {
        activation := Rejected;
        return;
      }
      phase := Active;
      activation := Resolved;
      Announce(stops);
      ScheduleHeartbeat(interval, now);
    }

    method FailActivation(stops: bool)
      modifies this
      ensures Contents() == ActivationFailed(old(Contents()), stops)
    {
      if !activation.Pending? {
        return;
      }
      activation := Rejected;
      Announce(stops);
      if phase.Activating? {
        phase := Idle;
      }
    }

    method Forget()
      modifies this
      ensures Contents() == ForgetActivation(old(Contents()))
    {
      if activation.Rejected? && phase.Idle? {
        activation := NotCalled;
      }
    }

    /** Returns whether a usage report was sent; a call in any other phase throws. */
    method Consume() returns (ok: bool)
      modifies this
      ensures Contents() == CallConsume(old(Contents()))
      ensures ok == (old(phase).Active? && old(token).Some?)
    {
      if !phase.Active? || token.None? {
        return false;
      }
      usage := usage + 1;
      sent := sent + [ToUsage(token.value)];
      return true;
    }

    method FinishUsage(rejected: bool, isFatal: bool, stops: bool)
      modifies this
      ensures Contents() == UsageAnswered(old(Contents()), rejected, isFatal, stops)
    {
      if usage == 0 {
        return;
      }
      usage := usage - 1;
      if rejected {
        Announce(stops);
        if isFatal {
          HandleFatalError();
        }
      }
    }

    method Stop()
      modifies this
      ensures Contents() == Deactivate(old(Contents()))
    {
      if !deactivation.NotStarted? {
        return;
      }
      phase := Deactivating;
      timer := None;
      deactivation := Waiting;
    }

    method Announce(stops: bool)
      modifies this
      ensures Contents() == Emit(old(Contents()), stops)
    {
      if stops {
        Stop();
      }
    }

    method HandleFatalError()
      modifies this
      ensures Contents() == Fatal(old(Contents()))
    {
      if !fatal {
        fatal := true;
        cleanupQueued := true;
      }
    }

    /** The event that announces a fatal answer, and its handling. */
    method GiveUp(stops: bool)
      modifies this
      ensures Contents() == Fatal(Emit(old(Contents()), stops))
    {
      Announce(stops);
      HandleFatalError();
    }

    method ScheduleHeartbeat(delay: int, now: int)
      modifies this
      ensures Contents() == Schedule(old(Contents()), delay, now)
    {
      if phase.Active? {
        timer := Some(now + delay);
      }
    }

    method BeginHeartbeat(now: int)
      modifies this
      ensures Contents() == TimerFires(old(Contents()), now)
    {
      if timer.None? {
        return;
      }
      timer := None;
      if !phase.Active? || token.None? {
        return;
      }
      heartbeat := Some(now);
      sent := sent + [ToHeartbeat(token.value)];
    }

    method RecordHeartbeatFailure(stops: bool)
      modifies this
      ensures Contents() == RecordFailure(cfg, old(Contents()), stops)
      ensures expiresAt == old(expiresAt)
    {
      if !phase.Active? {
        return;
      }
      strikes := strikes + 1;
      Announce(stops);
      if strikes >= cfg.maxRetries {
        HandleFatalError();
      }
    }

    method CountAttempt(clamped: bool, exhausted: bool)
      modifies this
      ensures Contents() == old(Contents()).(throttles := old(throttles) + 1,
                              protectedRetry := old(protectedRetry) || (clamped && !exhausted))
    {
      throttles := throttles + 1;
      if !exhausted {
        protectedRetry := protectedRetry || clamped;
      }
    }

    method CountThrottle(clamped: bool, stops: bool)
      modifies this
      ensures Contents() == ThrottleCounted(cfg, old(Contents()), clamped, stops)
    {
      var exhausted := throttles + 1 > cfg.maxRetries || (clamped && protectedRetry);
      CountAttempt(clamped, exhausted);
      if exhausted {
        GiveUp(stops);
      } else {
        Announce(stops);
      }
    }

    method RecordThrottledHeartbeat(header: RetryAfter, now: int, stops: bool) returns (delay: int)
      modifies this
      ensures Contents() == RecordThrottle(cfg, old(Contents()), header, now, stops)
      ensures delay == RetryDelay(cfg, RequestedRetry(header, old(interval), now), old(expiresAt), now)
    {
      var requested := RequestedRetry(header, interval, now);
      delay := RetryDelay(cfg, requested, expiresAt, now);
      CountThrottle(delay < requested, stops);
    }

    method ReceiveRenewal(grantedToken: string, ttlSeconds: int, startedAt: int, stops: bool)
      modifies this
      ensures Contents() == Renew(cfg, old(Contents()), grantedToken, ttlSeconds, startedAt, stops)
    {
      ReceiveSession(grantedToken, ttlSeconds, startedAt);
      strikes, throttles, protectedRetry := 0, 0, false;
      if phase.Active? {
        Announce(stops);
      }
    }

    method FinishHeartbeat(answer: Answer, now: int, stops: bool)
      modifies this
      ensures Contents() == HeartbeatAnswered(cfg, old(Contents()), answer, now, stops)
    {
      if heartbeat.None? {
        return;
      }
      var startedAt := heartbeat.value;
      heartbeat := None;
      var delay := interval;
      if IsSuccess(answer) {
        ReceiveRenewal(answer.token, answer.ttlSeconds, startedAt, stops);
        delay := HeartbeatInterval(cfg, answer.ttlSeconds);
      } else if answer.Throttled? {
        delay := RecordThrottledHeartbeat(answer.header, now, stops);
      } else if answer.Refused? {
        GiveUp(stops);
      } else {
        RecordHeartbeatFailure(stops);
        delay := RetryDelay(cfg, delay, expiresAt, now);
      }
      assert Contents() == Settle(cfg, old(Contents()).(heartbeat := None), answer, startedAt, now, stops);
      if !fatal {
        ScheduleHeartbeat(delay, now);
      }
    }

    method RunQueuedCleanup()
      modifies this
      ensures Contents() == RunCleanup(old(Contents()))
    {
      if cleanupQueued {
        cleanupQueued := false;
        Stop();
      }
    }

    method Close()
      modifies this
      ensures Contents() == Closed(old(Contents()))
    {
      token, expiresAt := None, None;
      phase := Deactivated;
      deactivation := Finished;
    }

    method Release()
      modifies this
      ensures Contents() == BeginRelease(old(Contents()))
    {
      if !deactivation.Waiting? || activation.Pending? || heartbeat.Some? || usage > 0 {
        return;
      }
      if token.None? {
        Close();
        return;
      }
      deactivation := Releasing;
      sent := sent + [ToRelease(token.value)];
    }

    method FinishRelease()
      modifies this
      ensures Contents() == ReleaseAnswered(old(Contents()))
    {
      if deactivation.Releasing? {
        Close();
      }
    }
  }
}
