/** What every run of the SDK client keeps, whatever the order of calls, answers and timers. */
module LicenseClientRuns {
  import opened Wrappers
  import opened HeartbeatTiming
  import opened LicenseClient

  datatype Event =
    | Activates
    | ActivationGranted(token: string, ttlSeconds: int, stops: bool)
    | ActivationRefused(stops: bool)
    | ActivationForgotten
    | Consumes
    | UsageEnds(rejected: bool, isFatal: bool, stops: bool)
    | Stops
    | Fires
    | HeartbeatEnds(answer: Answer, stops: bool)
    | CleanupRuns
    | ReleaseBegins
    | ReleaseEnds

  datatype Timed = Timed(event: Event, now: int)

  function Handle(cfg: Config, c: Client, t: Timed): Client
  {
    match t.event
    case Activates => CallActivate(c, t.now)
    case ActivationGranted(token, ttlSeconds, stops) =>
      ActivationAnswered(cfg, c, token, ttlSeconds, t.now, stops)
    case ActivationRefused(stops) => ActivationFailed(c, stops)
    case ActivationForgotten => ForgetActivation(c)
    case Consumes => CallConsume(c)
    case UsageEnds(rejected, isFatal, stops) => UsageAnswered(c, rejected, isFatal, stops)
    case Stops => Deactivate(c)
    case Fires => TimerFires(c, t.now)
    case HeartbeatEnds(answer, stops) => HeartbeatAnswered(cfg, c, answer, t.now, stops)
    case CleanupRuns => RunCleanup(c)
    case ReleaseBegins => BeginRelease(c)
    case ReleaseEnds => ReleaseAnswered(c)
  }

  /** The client after a history of events, starting from `c`. */
  function After(cfg: Config, c: Client, history: seq<Timed>): Client
    decreases |history|
  {
    if history == [] then c else After(cfg, Handle(cfg, c, history[0]), history[1..])
  }

  // ---------------------------------------------------------------- the invariant

  ghost predicate PhaseInv(c: Client)
  {
    && (c.deactivation.NotStarted? <==> c.phase.Idle? || c.phase.Activating? || c.phase.Active?)
    && (c.deactivation.Finished? <==> c.phase.Deactivated?)
    && (c.phase.Activating? ==> c.activation.Pending?)
    && (c.phase.Active? ==> c.activation.Resolved? && c.token.Some?)
    && (c.phase.Idle? ==> c.activation.NotCalled? || c.activation.Rejected?)
    && (c.phase.Deactivated? ==> c.token.None?)
    && (!c.activation.Resolved? ==> c.timer.None? && c.heartbeat.None? && c.usage == 0)
    && (c.deactivation.Releasing? || c.deactivation.Finished? ==> !Outstanding(c))
  }

  /** One heartbeat loop: a timer or an open heartbeat, never both. */
  ghost predicate LoopInv(c: Client)
  {
    && !(c.timer.Some? && c.heartbeat.Some?)
    && (c.timer.Some? ==> c.phase.Active?)
  }

  /** The loop is running, unless the client is not active or about to be deactivated. */
  ghost predicate Running(c: Client)
  {
    c.phase.Active? && !c.fatal ==> c.timer.Some? || c.heartbeat.Some?
  }

  ghost predicate FatalInv(cfg: Config, c: Client)
  {
    && (c.cleanupQueued ==> c.fatal)
    && (c.fatal ==> c.cleanupQueued || !c.deactivation.NotStarted?)
    && (c.deactivation.NotStarted? && !c.fatal ==> c.strikes < cfg.maxRetries && c.throttles <= cfg.maxRetries)
  }

  function Newest(c: Client): Grant
    requires c.received != []
  {
    c.received[|c.received| - 1]
  }

  /** The session held is the newest one issued. */
  ghost predicate TokenInv(cfg: Config, c: Client)
  {
    && (c.token.None? ==> c.expiresAt.None?)
    && (c.token.Some? ==>
          && c.received != []
          && AcceptedTtl(Newest(c).ttlSeconds)
          && c.token == Some(Newest(c).token)
          && c.expiresAt == Some(Newest(c).startedAt + Newest(c).ttlSeconds * 1_000)
          && c.interval == HeartbeatInterval(cfg, Newest(c).ttlSeconds))
  }

  ghost predicate NoRelease(sent: seq<Request>)
  {
    forall i :: 0 <= i < |sent| ==> !sent[i].ToRelease?
  }

  /** The release request, if any, is the last one and names the newest session. */
  ghost predicate Released(c: Client)
  {
    && c.sent != [] && c.received != []
    && NoRelease(c.sent[..|c.sent| - 1])
    && c.sent[|c.sent| - 1] == ToRelease(Newest(c).token)
  }

  ghost predicate ReleaseInv(c: Client)
  {
    match c.deactivation
    case NotStarted => NoRelease(c.sent)
    case Waiting => NoRelease(c.sent)
    case Releasing => Released(c)
    case Finished => NoRelease(c.sent) || Released(c)
  }

  ghost predicate Inv(cfg: Config, c: Client)
  {
    PhaseInv(c) && LoopInv(c) && Running(c) && FatalInv(cfg, c) && TokenInv(cfg, c) && ReleaseInv(c)
  }

  lemma FreshHasInv(cfg: Config)
    requires Checked(cfg)
    ensures Inv(cfg, Fresh(cfg))
  {
  }

  lemma ActivationKeepsInv(cfg: Config, c: Client, t: Timed)
    requires Inv(cfg, c) && Checked(cfg)
    requires t.event.Activates? || t.event.ActivationForgotten?
    ensures Inv(cfg, Handle(cfg, c, t))
  {
  }

  lemma RefusalKeepsInv(cfg: Config, c: Client, t: Timed)
    requires Inv(cfg, c) && t.event.ActivationRefused?
    ensures Inv(cfg, Handle(cfg, c, t))
  {
  }

  lemma GrantKeepsInv(cfg: Config, c: Client, t: Timed)
    requires Inv(cfg, c) && Checked(cfg) && t.event.ActivationGranted?
    ensures Inv(cfg, Handle(cfg, c, t))
  {
  }

  lemma ConsumeKeepsInv(cfg: Config, c: Client, t: Timed)
    requires Inv(cfg, c) && t.event.Consumes?
    ensures Inv(cfg, Handle(cfg, c, t))
  {
  }

  lemma DeactivateKeepsInv(cfg: Config, c: Client)
    requires Inv(cfg, c)
    ensures Inv(cfg, Deactivate(c))
  {
  }

  lemma FatalKeepsInv(cfg: Config, c: Client)
    requires Inv(cfg, c)
    ensures Inv(cfg, Fatal(c))
  {
  }

  lemma UsageKeepsInv(cfg: Config, c: Client, t: Timed)
    requires Inv(cfg, c) && t.event.UsageEnds?
    ensures Inv(cfg, Handle(cfg, c, t))
  {
    if c.usage > 0 {
      var counted := c.(usage := c.usage - 1);
      assert Inv(cfg, counted);
      DeactivateKeepsInv(cfg, counted);
      FatalKeepsInv(cfg, counted);
      FatalKeepsInv(cfg, Deactivate(counted));
    }
  }

  lemma FiringKeepsInv(cfg: Config, c: Client, t: Timed)
    requires Inv(cfg, c) && t.event.Fires?
    ensures Inv(cfg, Handle(cfg, c, t))
  {
  }

  lemma StoppingKeepsInv(cfg: Config, c: Client, t: Timed)
    requires Inv(cfg, c)
    requires t.event.Stops? || t.event.CleanupRuns? || t.event.ReleaseBegins? || t.event.ReleaseEnds?
    ensures Inv(cfg, Handle(cfg, c, t))
  {
  }

  /** Up to the `finally` of a heartbeat the loop is off; all but the counters is kept throughout. */
  ghost predicate Paused(cfg: Config, c: Client)
  {
    && PhaseInv(c) && TokenInv(cfg, c) && ReleaseInv(c)
    && (c.cleanupQueued ==> c.fatal)
    && (c.fatal ==> c.cleanupQueued || !c.deactivation.NotStarted?)
    && c.timer.None? && c.heartbeat.None? && c.activation.Resolved?
  }

  lemma EmitKeeps(cfg: Config, c: Client, stops: bool)
    requires Paused(cfg, c)
    ensures Paused(cfg, Emit(c, stops))
    ensures FatalInv(cfg, c) ==> FatalInv(cfg, Emit(c, stops))
  {
  }

  lemma FatalKeeps(cfg: Config, c: Client)
    requires Paused(cfg, c)
    ensures Paused(cfg, Fatal(c)) && FatalInv(cfg, Fatal(c))
  {
  }

  lemma RenewKeeps(cfg: Config, c: Client, token: string, ttlSeconds: int, startedAt: int, stops: bool)
    requires Checked(cfg) && Paused(cfg, c) && !c.deactivation.Releasing? && !c.deactivation.Finished?
    requires AcceptedTtl(ttlSeconds)
    ensures Paused(cfg, Renew(cfg, c, token, ttlSeconds, startedAt, stops))
    ensures FatalInv(cfg, Renew(cfg, c, token, ttlSeconds, startedAt, stops))
  {
    var issued := Issued(cfg, c, token, ttlSeconds, startedAt).(strikes := 0, throttles := 0, protectedRetry := false);
    assert Paused(cfg, issued) && FatalInv(cfg, issued);
    EmitKeeps(cfg, issued, stops);
  }

  lemma ThrottleKeeps(cfg: Config, c: Client, header: RetryAfter, now: int, stops: bool)
    requires Paused(cfg, c) && FatalInv(cfg, c)
    ensures Paused(cfg, RecordThrottle(cfg, c, header, now, stops))
    ensures FatalInv(cfg, RecordThrottle(cfg, c, header, now, stops))
  {
    var clamped := IsClamped(cfg, c, header, now);
    var counted := c.(throttles := c.throttles + 1);
    if counted.throttles > cfg.maxRetries || (clamped && c.protectedRetry) {
      EmitKeeps(cfg, counted, stops);
      FatalKeeps(cfg, Emit(counted, stops));
    } else {
      var noted := counted.(protectedRetry := c.protectedRetry || clamped);
      assert FatalInv(cfg, noted);
      EmitKeeps(cfg, noted, stops);
    }
  }

  lemma FailureKeeps(cfg: Config, c: Client, stops: bool)
    requires Paused(cfg, c) && FatalInv(cfg, c)
    ensures Paused(cfg, RecordFailure(cfg, c, stops)) && FatalInv(cfg, RecordFailure(cfg, c, stops))
  {
    if c.phase.Active? {
      var counted := c.(strikes := c.strikes + 1);
      EmitKeeps(cfg, counted, stops);
      FatalKeeps(cfg, Emit(counted, stops));
    }
  }

  lemma SettleKeeps(cfg: Config, c: Client, answer: Answer, startedAt: int, now: int, stops: bool)
    requires Checked(cfg) && Paused(cfg, c) && FatalInv(cfg, c)
    requires !c.deactivation.Releasing? && !c.deactivation.Finished?
    ensures Paused(cfg, Settle(cfg, c, answer, startedAt, now, stops))
    ensures FatalInv(cfg, Settle(cfg, c, answer, startedAt, now, stops))
  {
    if IsSuccess(answer) {
      RenewKeeps(cfg, c, answer.token, answer.ttlSeconds, startedAt, stops);
    } else if answer.Throttled? {
      ThrottleKeeps(cfg, c, answer.header, now, stops);
    } else if answer.Refused? {
      EmitKeeps(cfg, c, stops);
      FatalKeeps(cfg, Emit(c, stops));
    } else {
      FailureKeeps(cfg, c, stops);
    }
  }

  lemma HeartbeatKeepsInv(cfg: Config, c: Client, t: Timed)
    requires Inv(cfg, c) && Checked(cfg) && t.event.HeartbeatEnds?
    ensures Inv(cfg, Handle(cfg, c, t))
    ensures c.heartbeat.Some? ==> Handle(cfg, c, t).activation.Resolved?
  {
    if c.heartbeat.Some? {
      var ended := c.(heartbeat := None);
      assert Paused(cfg, ended) && FatalInv(cfg, ended);
      SettleKeeps(cfg, ended, t.event.answer, c.heartbeat.value, t.now, t.event.stops);
      ContinueKeeps(cfg, Settle(cfg, ended, t.event.answer, c.heartbeat.value, t.now, t.event.stops),
                    NextDelay(cfg, c, t.event.answer, t.now), t.now);
    }
  }

  lemma ContinueKeeps(cfg: Config, c: Client, delay: int, now: int)
    requires Paused(cfg, c) && FatalInv(cfg, c)
    ensures Inv(cfg, Continue(c, delay, now)) && Continue(c, delay, now).activation.Resolved?
  {
  }

  lemma HandleKeepsInv(cfg: Config, c: Client, t: Timed)
    requires Inv(cfg, c) && Checked(cfg)
    ensures Inv(cfg, Handle(cfg, c, t))
  {
    match t.event
    case Activates => ActivationKeepsInv(cfg, c, t);
    case ActivationRefused(_) => RefusalKeepsInv(cfg, c, t);
    case ActivationForgotten => ActivationKeepsInv(cfg, c, t);
    case ActivationGranted(_, _, _) => GrantKeepsInv(cfg, c, t);
    case Consumes => ConsumeKeepsInv(cfg, c, t);
    case UsageEnds(_, _, _) => UsageKeepsInv(cfg, c, t);
    case Fires => FiringKeepsInv(cfg, c, t);
    case HeartbeatEnds(_, _) => HeartbeatKeepsInv(cfg, c, t);
    case Stops => StoppingKeepsInv(cfg, c, t);
    case CleanupRuns => StoppingKeepsInv(cfg, c, t);
    case ReleaseBegins => StoppingKeepsInv(cfg, c, t);
    case ReleaseEnds => StoppingKeepsInv(cfg, c, t);
  }

  lemma {:induction false} RunKeepsInv(cfg: Config, c: Client, history: seq<Timed>)
    requires Checked(cfg) && Inv(cfg, c)
    ensures Inv(cfg, After(cfg, c, history))
    decreases |history|
  {
    if history != [] {
      HandleKeepsInv(cfg, c, history[0]);
      RunKeepsInv(cfg, Handle(cfg, c, history[0]), history[1..]);
    }
  }

  /** In every run there is at most one timer or open heartbeat, and exactly one while the client is healthy. */
  lemma HeartbeatLoopIsSingle(cfg: Config, history: seq<Timed>)
    requires Checked(cfg)
    ensures
      var c := After(cfg, Fresh(cfg), history);
      && !(c.timer.Some? && c.heartbeat.Some?)
      && (c.phase.Active? && !c.fatal ==> (c.timer.Some? <==> c.heartbeat.None?))
      && (c.phase.Active? && c.fatal ==> c.cleanupQueued)
      && (!c.phase.Active? ==> c.timer.None?)
  {
    FreshHasInv(cfg);
    RunKeepsInv(cfg, Fresh(cfg), history);
  }

  /** A release is the last request of a run, names the newest session, and leaves nothing outstanding. */
  lemma ReleaseIsLast(cfg: Config, history: seq<Timed>, i: int)
    requires Checked(cfg)
    requires 0 <= i < |After(cfg, Fresh(cfg), history).sent|
    requires After(cfg, Fresh(cfg), history).sent[i].ToRelease?
    ensures
      var c := After(cfg, Fresh(cfg), history);
      && i == |c.sent| - 1
      && c.received != [] && c.sent[i].token == Newest(c).token
      && !Outstanding(c) && c.timer.None?
  {
    FreshHasInv(cfg);
    RunKeepsInv(cfg, Fresh(cfg), history);
    var c := After(cfg, Fresh(cfg), history);
    assert Released(c);
    forall k | 0 <= k < |c.sent| - 1 ensures !c.sent[k].ToRelease? {
      assert c.sent[..|c.sent| - 1][k] == c.sent[k];
    }
  }

  // ---------------------------------------------------------------- after deactivation

  /** Between `c` and `d`, with `c` being deactivated, at most the release was sent. */
  ghost predicate Winding(c: Client, d: Client)
  {
    && !d.deactivation.NotStarted?
    && (d.sent == c.sent
        || (&& c.deactivation.Waiting? && !d.deactivation.Waiting?
            && d.received != [] && d.sent == c.sent + [ToRelease(Newest(d).token)]))
  }

  lemma HeartbeatWinds(cfg: Config, c: Client, t: Timed)
    requires Inv(cfg, c) && !c.deactivation.NotStarted? && t.event.HeartbeatEnds?
    ensures Winding(c, Handle(cfg, c, t))
    ensures !c.deactivation.Waiting? ==> Handle(cfg, c, t) == c
  {
    if c.heartbeat.Some? && !IsSuccess(t.event.answer) {
      UnsuccessfulHeartbeat(cfg, c, t.event.answer, t.now, t.event.stops);
    }
  }

  lemma ReleaseWinds(cfg: Config, c: Client, t: Timed)
    requires Inv(cfg, c) && !c.deactivation.NotStarted? && (t.event.ReleaseBegins? || t.event.ReleaseEnds?)
    ensures Winding(c, Handle(cfg, c, t))
    ensures !c.deactivation.Waiting? ==>
              !Handle(cfg, c, t).deactivation.Waiting? && Handle(cfg, c, t).received == c.received
  {
  }

  lemma OthersWind(cfg: Config, c: Client, t: Timed)
    requires Inv(cfg, c) && !c.deactivation.NotStarted?
    requires !t.event.HeartbeatEnds? && !t.event.ReleaseBegins? && !t.event.ReleaseEnds?
    ensures Winding(c, Handle(cfg, c, t))
    ensures !c.deactivation.Waiting? ==>
              !Handle(cfg, c, t).deactivation.Waiting? && Handle(cfg, c, t).received == c.received
  {
    assert c.timer.None? && !c.phase.Active? && !c.phase.Idle? && !c.phase.Activating?;
  }

  lemma HandleWinds(cfg: Config, c: Client, t: Timed)
    requires Inv(cfg, c) && !c.deactivation.NotStarted?
    ensures Winding(c, Handle(cfg, c, t))
    ensures !c.deactivation.Waiting? ==>
              !Handle(cfg, c, t).deactivation.Waiting? && Handle(cfg, c, t).received == c.received
  {
    if t.event.HeartbeatEnds? {
      HeartbeatWinds(cfg, c, t);
    } else if t.event.ReleaseBegins? || t.event.ReleaseEnds? {
      ReleaseWinds(cfg, c, t);
    } else {
      OthersWind(cfg, c, t);
    }
  }

  /** Once deactivation has begun, no activation, heartbeat or usage report is sent any more. */
  lemma {:induction false} NothingSentAfterDeactivation(cfg: Config, c: Client, later: seq<Timed>)
    requires Checked(cfg) && Inv(cfg, c) && !c.deactivation.NotStarted?
    ensures Winding(c, After(cfg, c, later))
    ensures !c.deactivation.Waiting? ==>
              !After(cfg, c, later).deactivation.Waiting? && After(cfg, c, later).received == c.received
    decreases |later|
  {
    if later != [] {
      HandleWinds(cfg, c, later[0]);
      HandleKeepsInv(cfg, c, later[0]);
      NothingSentAfterDeactivation(cfg, Handle(cfg, c, later[0]), later[1..]);
    }
  }

  /** A deactivated client never changes again, but for a cleanup that was still queued. */
  lemma {:induction false} DeactivatedIsFinal(cfg: Config, c: Client, later: seq<Timed>)
    requires Inv(cfg, c) && c.phase.Deactivated?
    ensures After(cfg, c, later) == c.(cleanupQueued := After(cfg, c, later).cleanupQueued)
    decreases |later|
  {
    if later != [] {
      var next := Handle(cfg, c, later[0]);
      assert next == c.(cleanupQueued := next.cleanupQueued);
      DeactivatedIsFinal(cfg, next, later[1..]);
    }
  }

  // ---------------------------------------------------------------- retries

  ghost predicate NoSuccess(history: seq<Timed>)
  {
    forall i :: 0 <= i < |history| && history[i].event.HeartbeatEnds? ==> !IsSuccess(history[i].event.answer)
  }

  /** How many heartbeats were answered during `history`. */
  function Answered(cfg: Config, c: Client, history: seq<Timed>): nat
    decreases |history|
  {
    if history == [] then 0
    else
      (if history[0].event.HeartbeatEnds? && c.heartbeat.Some? then 1 else 0)
      + Answered(cfg, Handle(cfg, c, history[0]), history[1..])
  }

  predicate Ending(c: Client)
  {
    c.fatal || !c.deactivation.NotStarted?
  }

  lemma FailureCounts(cfg: Config, c: Client, stops: bool)
    ensures
      var d := RecordFailure(cfg, c, stops);
      && d.received == c.received && d.expiresAt == c.expiresAt && d.heartbeat == c.heartbeat
      && d.sent == c.sent && (!c.deactivation.NotStarted? ==> d.deactivation == c.deactivation)
      && (d.phase.Active? && !d.fatal ==>
            c.phase.Active? && !c.fatal && d.strikes + d.throttles == c.strikes + c.throttles + 1)
      && (c.fatal || c.protectedRetry ==> d.fatal || d.protectedRetry)
  {
  }

  lemma ThrottleCounts(cfg: Config, c: Client, header: RetryAfter, now: int, stops: bool)
    ensures
      var d := RecordThrottle(cfg, c, header, now, stops);
      && d.received == c.received && d.expiresAt == c.expiresAt && d.heartbeat == c.heartbeat
      && d.sent == c.sent && (!c.deactivation.NotStarted? ==> d.deactivation == c.deactivation)
      && (d.phase.Active? && !d.fatal ==>
            c.phase.Active? && !c.fatal && d.strikes + d.throttles == c.strikes + c.throttles + 1)
      && (c.fatal || c.protectedRetry ==> d.fatal || d.protectedRetry)
      && (IsClamped(cfg, c, header, now) ==> d.fatal || d.protectedRetry)
      && (IsClamped(cfg, c, header, now) && (c.fatal || c.protectedRetry) ==> d.fatal)
  {
  }

  /** A heartbeat without success is counted once, and leaves the client ending or its timer armed. */
  lemma UnsuccessfulHeartbeat(cfg: Config, c: Client, answer: Answer, now: int, stops: bool)
    requires c.heartbeat.Some? && !IsSuccess(answer)
    ensures
      var d := HeartbeatAnswered(cfg, c, answer, now, stops);
      && d.received == c.received && d.expiresAt == c.expiresAt && d.heartbeat.None?
      && d.sent == c.sent && (!c.deactivation.NotStarted? ==> d.deactivation == c.deactivation)
      && (d.phase.Active? && !d.fatal ==>
            && c.phase.Active? && !c.fatal && !answer.Refused?
            && d.timer == Some(now + NextDelay(cfg, c, answer, now))
            && d.strikes + d.throttles == c.strikes + c.throttles + 1)
      && (c.fatal || c.protectedRetry ==> d.fatal || d.protectedRetry)
  {
    var ended := c.(heartbeat := None);
    if answer.Throttled? {
      ThrottleCounts(cfg, ended, answer.header, now, stops);
    } else if !answer.Refused? {
      FailureCounts(cfg, ended, stops);
    }
  }

  predicate SameCounters(c: Client, d: Client)
  {
    && d.strikes == c.strikes && d.throttles == c.throttles && d.protectedRetry == c.protectedRetry
    && (c.fatal ==> d.fatal)
  }

  lemma ActivationsCountNothing(cfg: Config, c: Client, t: Timed)
    requires t.event.Activates? || t.event.ActivationGranted? || t.event.ActivationRefused?
    ensures SameCounters(c, Handle(cfg, c, t))
  {
  }

  lemma OtherEventsCountNothing(cfg: Config, c: Client, t: Timed)
    requires !t.event.HeartbeatEnds?
    ensures SameCounters(c, Handle(cfg, c, t))
  {
    if t.event.Activates? || t.event.ActivationGranted? || t.event.ActivationRefused? {
      ActivationsCountNothing(cfg, c, t);
    }
  }

  lemma ActivationsKeepStopped(cfg: Config, c: Client, t: Timed)
    requires !c.deactivation.NotStarted?
    requires t.event.Activates? || t.event.ActivationGranted? || t.event.ActivationRefused?
    ensures !Handle(cfg, c, t).deactivation.NotStarted?
  {
  }

  lemma OtherEventsKeepStopped(cfg: Config, c: Client, t: Timed)
    requires !t.event.HeartbeatEnds? && !c.deactivation.NotStarted?
    ensures !Handle(cfg, c, t).deactivation.NotStarted?
  {
    if t.event.Activates? || t.event.ActivationGranted? || t.event.ActivationRefused? {
      ActivationsKeepStopped(cfg, c, t);
    }
  }

  lemma OtherEventsKeepEnding(cfg: Config, c: Client, t: Timed)
    requires !t.event.HeartbeatEnds? && Ending(c)
    ensures Ending(Handle(cfg, c, t))
  {
    if c.fatal {
      OtherEventsCountNothing(cfg, c, t);
    } else {
      OtherEventsKeepStopped(cfg, c, t);
    }
  }

  lemma HeartbeatsKeepEnding(cfg: Config, c: Client, t: Timed)
    requires Inv(cfg, c) && t.event.HeartbeatEnds? && Ending(c)
    ensures Ending(Handle(cfg, c, t))
  {
  }

  lemma HandleCounts(cfg: Config, c: Client, t: Timed)
    requires Checked(cfg) && Inv(cfg, c) && NoSuccess([t])
    ensures
      var d := Handle(cfg, c, t);
      || Ending(d)
      || d.strikes + d.throttles
         == c.strikes + c.throttles + if t.event.HeartbeatEnds? && c.heartbeat.Some? then 1 else 0
    ensures Ending(c) ==> Ending(Handle(cfg, c, t))
  {
    assert [t][0] == t;
    if Ending(c) {
      EndingStays(cfg, c, t);
    } else if t.event.HeartbeatEnds? {
      if c.heartbeat.Some? {
        UnsuccessfulHeartbeat(cfg, c, t.event.answer, t.now, t.event.stops);
        HeartbeatKeepsActive(cfg, c, t);
      }
    } else {
      OtherEventsCountNothing(cfg, c, t);
    }
  }

  lemma HeartbeatKeepsActive(cfg: Config, c: Client, t: Timed)
    requires Checked(cfg) && Inv(cfg, c) && t.event.HeartbeatEnds? && c.heartbeat.Some?
    ensures Ending(Handle(cfg, c, t)) || Handle(cfg, c, t).phase.Active?
  {
    HeartbeatKeepsInv(cfg, c, t);
  }

  lemma {:induction false} FailuresAreCounted(cfg: Config, c: Client, history: seq<Timed>)
    requires Checked(cfg) && Inv(cfg, c) && NoSuccess(history)
    ensures
      var d := After(cfg, c, history);
      Ending(d) || d.strikes + d.throttles == c.strikes + c.throttles + Answered(cfg, c, history)
    ensures Ending(c) ==> Ending(After(cfg, c, history))
    decreases |history|
  {
    if history != [] {
      assert NoSuccess([history[0]]) && NoSuccess(history[1..]);
      HandleCounts(cfg, c, history[0]);
      HandleKeepsInv(cfg, c, history[0]);
      FailuresAreCounted(cfg, Handle(cfg, c, history[0]), history[1..]);
    }
  }

  /** Any mix of failures and throttles ends the client by the (2 * maxRetries)-th answer without a success. */
  lemma RetriesAreBounded(cfg: Config, c: Client, history: seq<Timed>)
    requires Checked(cfg) && Inv(cfg, c) && NoSuccess(history)
    requires Answered(cfg, c, history) >= 2 * cfg.maxRetries
    ensures Ending(After(cfg, c, history))
  {
    FailuresAreCounted(cfg, c, history);
    RunKeepsInv(cfg, c, history);
  }

  lemma {:induction false} Concatenated(cfg: Config, c: Client, first: seq<Timed>, second: seq<Timed>)
    ensures After(cfg, c, first + second) == After(cfg, After(cfg, c, first), second)
    ensures Answered(cfg, c, first + second)
            == Answered(cfg, c, first) + Answered(cfg, After(cfg, c, first), second)
    ensures OnTime(cfg, 0, c, first) && OnTime(cfg, 0, After(cfg, c, first), second) ==> OnTime(cfg, 0, c, first + second)
    decreases |first|
  {
    if first == [] {
      assert first + second == second;
    } else {
      assert (first + second)[1..] == first[1..] + second;
      Concatenated(cfg, Handle(cfg, c, first[0]), first[1..], second);
    }
  }

  lemma TwoEvents(cfg: Config, c: Client, a: Timed, b: Timed)
    ensures After(cfg, c, [a, b]) == Handle(cfg, Handle(cfg, c, a), b)
    ensures Answered(cfg, c, [a, b])
            == (if a.event.HeartbeatEnds? && c.heartbeat.Some? then 1 else 0)
               + if b.event.HeartbeatEnds? && Handle(cfg, c, a).heartbeat.Some? then 1 else 0
    ensures OnTime(cfg, 0, c, [a, b]) <==> Punctual(cfg, 0, c, a) && Punctual(cfg, 0, Handle(cfg, c, a), b)
  {
    var d := Handle(cfg, c, a);
    assert [a, b][1..] == [b];
    assert After(cfg, c, [a, b]) == After(cfg, d, [b]);
    assert Answered(cfg, d, [b]) == if b.event.HeartbeatEnds? && d.heartbeat.Some? then 1 else 0;
    assert OnTime(cfg, 0, d, [b]) <==> Punctual(cfg, 0, d, b);
  }

  /** A heartbeat answered at once. */
  function Beat(answer: Answer, now: int): seq<Timed>
  {
    [Timed(Fires, now), Timed(HeartbeatEnds(answer, false), now)]
  }

  function Start(token: string, ttlSeconds: int): seq<Timed>
  {
    [Timed(Activates, 0), Timed(ActivationGranted(token, ttlSeconds, false), 0)]
  }

  ghost predicate Serving(cfg: Config, ttlSeconds: int, c: Client, strikes: int, throttles: int)
  {
    && c.phase.Active? && c.activation.Resolved? && !Ending(c) && !c.protectedRetry && c.heartbeat.None?
    && c.token.Some? && c.expiresAt == Some(ttlSeconds * 1_000) && c.interval == HeartbeatInterval(cfg, ttlSeconds)
    && c.timer.Some? && c.strikes == strikes && c.throttles == throttles
  }

  lemma Starts(cfg: Config, token: string, ttlSeconds: int)
    requires Checked(cfg) && AcceptedTtl(ttlSeconds)
    ensures Serving(cfg, ttlSeconds, After(cfg, Fresh(cfg), Start(token, ttlSeconds)), 0, 0)
    ensures After(cfg, Fresh(cfg), Start(token, ttlSeconds)).timer == Some(HeartbeatInterval(cfg, ttlSeconds))
    ensures OnTime(cfg, 0, Fresh(cfg), Start(token, ttlSeconds))
    ensures Answered(cfg, Fresh(cfg), Start(token, ttlSeconds)) == 0
  {
    TwoEvents(cfg, Fresh(cfg), Start(token, ttlSeconds)[0], Start(token, ttlSeconds)[1]);
  }

  /** A throttle that asks for a second, while more than a timeout and two seconds are left, is not clamped. */
  lemma OneThrottle(cfg: Config, ttlSeconds: int, c: Client, at: int, throttles: nat)
    requires Checked(cfg) && Serving(cfg, ttlSeconds, c, 0, throttles) && throttles < cfg.maxRetries
    requires at + cfg.timeoutMs + 2_000 <= ttlSeconds * 1_000
    ensures
      var d := After(cfg, c, Beat(Throttled(Seconds(1)), at));
      Serving(cfg, ttlSeconds, d, 0, throttles + 1) && d.timer == Some(at + 1_000)
    ensures at == c.timer.value ==> OnTime(cfg, 0, c, Beat(Throttled(Seconds(1)), at))
    ensures Answered(cfg, c, Beat(Throttled(Seconds(1)), at)) == 1
  {
    TwoEvents(cfg, c, Beat(Throttled(Seconds(1)), at)[0], Beat(Throttled(Seconds(1)), at)[1]);
  }

  lemma OneFailure(cfg: Config, ttlSeconds: int, c: Client, at: int, strikes: nat, throttles: nat)
    requires Checked(cfg) && Serving(cfg, ttlSeconds, c, strikes, throttles) && strikes + 1 < cfg.maxRetries
    ensures Serving(cfg, ttlSeconds, After(cfg, c, Beat(Failure, at)), strikes + 1, throttles)
    ensures at == c.timer.value ==> OnTime(cfg, 0, c, Beat(Failure, at))
    ensures Answered(cfg, c, Beat(Failure, at)) == 1
  {
    TwoEvents(cfg, c, Beat(Failure, at)[0], Beat(Failure, at)[1]);
  }

  lemma NoSuccessTogether(first: seq<Timed>, second: seq<Timed>)
    requires NoSuccess(first) && NoSuccess(second)
    ensures NoSuccess(first + second)
  {
  }

  /** `n` throttles in a row; on time if they fit into the session, and all at once otherwise. */
  lemma {:induction false} ManyThrottles(cfg: Config, ttlSeconds: int, c: Client, throttles: nat, n: nat, fits: bool)
    returns (misses: seq<Timed>)
    requires Checked(cfg) && Serving(cfg, ttlSeconds, c, 0, throttles) && throttles + n <= cfg.maxRetries
    requires cfg.timeoutMs + 2_000 <= ttlSeconds * 1_000
    requires fits ==> c.timer.value + 1_000 * n + cfg.timeoutMs + 2_000 <= ttlSeconds * 1_000
    ensures NoSuccess(misses) && Answered(cfg, c, misses) == n && (fits ==> OnTime(cfg, 0, c, misses))
    ensures Serving(cfg, ttlSeconds, After(cfg, c, misses), 0, throttles + n)
    decreases n
  {
    misses := [];
    if n > 0 {
      var at := if fits then c.timer.value else 0;
      var beat := Beat(Throttled(Seconds(1)), at);
      OneThrottle(cfg, ttlSeconds, c, at, throttles);
      var rest := ManyThrottles(cfg, ttlSeconds, After(cfg, c, beat), throttles + 1, n - 1, fits);
      Concatenated(cfg, c, beat, rest);
      NoSuccessTogether(beat, rest);
      misses := beat + rest;
    }
  }

  lemma {:induction false} ManyFailures(cfg: Config, ttlSeconds: int, c: Client, strikes: nat, throttles: nat, n: nat)
    returns (misses: seq<Timed>)
    requires Checked(cfg) && Serving(cfg, ttlSeconds, c, strikes, throttles) && strikes + n < cfg.maxRetries
    ensures NoSuccess(misses) && Answered(cfg, c, misses) == n && OnTime(cfg, 0, c, misses)
    ensures Serving(cfg, ttlSeconds, After(cfg, c, misses), strikes + n, throttles)
    decreases n
  {
    misses := [];
    if n > 0 {
      var beat := Beat(Failure, c.timer.value);
      OneFailure(cfg, ttlSeconds, c, c.timer.value, strikes, throttles);
      var rest := ManyFailures(cfg, ttlSeconds, After(cfg, c, beat), strikes + 1, throttles, n - 1);
      Concatenated(cfg, c, beat, rest);
      NoSuccessTogether(beat, rest);
      misses := beat + rest;
    }
  }

  /**
   The bound is reached for every configuration whose timeout leaves two seconds of the session:
   some 2 * maxRetries - 1 misses leave the client in service, all of them on time if a second
   for each throttle fits into the session.
   */
  lemma BoundIsReached(cfg: Config, token: string, ttlSeconds: int) returns (misses: seq<Timed>)
    requires Checked(cfg) && AcceptedTtl(ttlSeconds) && cfg.timeoutMs + 2_000 <= ttlSeconds * 1_000
    ensures NoSuccess(misses)
    ensures Answered(cfg, Fresh(cfg), Start(token, ttlSeconds) + misses) == 2 * cfg.maxRetries - 1
    ensures !Ending(After(cfg, Fresh(cfg), Start(token, ttlSeconds) + misses))
    ensures HeartbeatInterval(cfg, ttlSeconds) + 1_000 * cfg.maxRetries + cfg.timeoutMs + 2_000 <= ttlSeconds * 1_000
            ==> OnTime(cfg, 0, Fresh(cfg), Start(token, ttlSeconds) + misses)
  {
    var fits := HeartbeatInterval(cfg, ttlSeconds) + 1_000 * cfg.maxRetries + cfg.timeoutMs + 2_000 <= ttlSeconds * 1_000;
    Starts(cfg, token, ttlSeconds);
    var c := After(cfg, Fresh(cfg), Start(token, ttlSeconds));
    var first := ManyThrottles(cfg, ttlSeconds, c, 0, cfg.maxRetries, fits);
    var second := ManyFailures(cfg, ttlSeconds, After(cfg, c, first), 0, cfg.maxRetries, cfg.maxRetries - 1);
    Concatenated(cfg, c, first, second);
    NoSuccessTogether(first, second);
    misses := first + second;
    Concatenated(cfg, Fresh(cfg), Start(token, ttlSeconds), misses);
  }

  // ---------------------------------------------------------------- throttles clamped by the expiry

  predicate ClampedThrottle(cfg: Config, c: Client, t: Timed)
  {
    && t.event.HeartbeatEnds? && t.event.answer.Throttled? && c.heartbeat.Some?
    && IsClamped(cfg, c, t.event.answer.header, t.now)
  }

  lemma HandleRemembersClamp(cfg: Config, c: Client, t: Timed)
    requires c.fatal || c.protectedRetry
    requires NoSuccess([t])
    ensures Handle(cfg, c, t).fatal || Handle(cfg, c, t).protectedRetry
  {
    assert [t][0] == t;
    if !t.event.HeartbeatEnds? {
      OtherEventsCountNothing(cfg, c, t);
    } else if c.heartbeat.Some? {
      UnsuccessfulHeartbeat(cfg, c, t.event.answer, t.now, t.event.stops);
    }
  }

  lemma {:induction false} RunRemembersClamp(cfg: Config, c: Client, history: seq<Timed>)
    requires (c.fatal || c.protectedRetry) && NoSuccess(history)
    ensures After(cfg, c, history).fatal || After(cfg, c, history).protectedRetry
    decreases |history|
  {
    if history != [] {
      assert NoSuccess([history[0]]) && NoSuccess(history[1..]);
      HandleRemembersClamp(cfg, c, history[0]);
      RunRemembersClamp(cfg, Handle(cfg, c, history[0]), history[1..]);
    }
  }

  lemma ClampIsRemembered(cfg: Config, c: Client, t: Timed)
    requires ClampedThrottle(cfg, c, t)
    ensures Handle(cfg, c, t).fatal || Handle(cfg, c, t).protectedRetry
    ensures c.fatal || c.protectedRetry ==> Handle(cfg, c, t).fatal
  {
    ThrottleCounts(cfg, c.(heartbeat := None), t.event.answer.header, t.now, t.event.stops);
  }

  /** With no success in between, the second throttle whose retry the expiry clamps is always fatal. */
  lemma SecondClampedThrottleIsFatal(cfg: Config, c: Client, first: Timed, between: seq<Timed>, second: Timed)
    requires ClampedThrottle(cfg, c, first) && NoSuccess(between)
    requires ClampedThrottle(cfg, After(cfg, Handle(cfg, c, first), between), second)
    ensures Handle(cfg, After(cfg, Handle(cfg, c, first), between), second).fatal
  {
    ClampIsRemembered(cfg, c, first);
    RunRemembersClamp(cfg, Handle(cfg, c, first), between);
    ClampIsRemembered(cfg, After(cfg, Handle(cfg, c, first), between), second);
  }

  // ---------------------------------------------------------------- when a heartbeat is fatal

  datatype Miss = Failed | Throttle(clamped: bool)

  function NextMisses(cfg: Config, c: Client, t: Timed, before: seq<Miss>): seq<Miss>
  {
    if !t.event.HeartbeatEnds? || c.heartbeat.None? || t.event.answer.Refused? then before
    else if IsSuccess(t.event.answer) then []
    else if t.event.answer.Throttled? then before + [Throttle(IsClamped(cfg, c, t.event.answer.header, t.now))]
    else before + [Failed]
  }

  /** The heartbeats missed since the last success, read off the history alone. */
  function Misses(cfg: Config, history: seq<Timed>): seq<Miss>
    decreases |history|
  {
    if history == [] then []
    else
      var n := |history| - 1;
      NextMisses(cfg, After(cfg, Fresh(cfg), history[..n]), history[n], Misses(cfg, history[..n]))
  }

  function Failures(misses: seq<Miss>): nat
  {
    if misses == [] then 0
    else Failures(misses[..|misses| - 1]) + if misses[|misses| - 1].Failed? then 1 else 0
  }

  ghost predicate Clamped(misses: seq<Miss>)
  {
    exists i :: 0 <= i < |misses| && misses[i] == Throttle(true)
  }

  lemma OneMoreMiss(misses: seq<Miss>, miss: Miss)
    ensures Failures(misses + [miss]) == Failures(misses) + if miss.Failed? then 1 else 0
    ensures Clamped(misses + [miss]) <==> Clamped(misses) || miss == Throttle(true)
  {
    assert (misses + [miss])[..|misses|] == misses;
    if Clamped(misses) {
      var i :| 0 <= i < |misses| && misses[i] == Throttle(true);
      assert (misses + [miss])[i] == Throttle(true);
    }
    assert (misses + [miss])[|misses|] == miss;
  }

  ghost predicate Counts(c: Client, misses: seq<Miss>)
  {
    c.strikes == Failures(misses) && c.strikes + c.throttles == |misses| && (c.protectedRetry <==> Clamped(misses))
  }

  /** What one answered heartbeat does to a client that stays in service, and when it does not. */
  lemma AnswerCounts(cfg: Config, c: Client, answer: Answer, now: int, stops: bool)
    requires PhaseInv(c) && !Ending(c) && c.heartbeat.Some? && !answer.Refused? && !IsSuccess(answer)
    ensures
      var d := HeartbeatAnswered(cfg, c, answer, now, stops);
      if answer.Throttled? then
        && d.strikes == c.strikes && d.throttles == c.throttles + 1
        && (d.fatal <==> c.throttles + 1 > cfg.maxRetries || (IsClamped(cfg, c, answer.header, now) && c.protectedRetry))
        && (!d.fatal ==> d.protectedRetry == (c.protectedRetry || IsClamped(cfg, c, answer.header, now)))
      else
        && d.strikes == c.strikes + 1 && d.throttles == c.throttles && d.protectedRetry == c.protectedRetry
        && (d.fatal <==> c.strikes + 1 >= cfg.maxRetries)
  {
    assert c.phase.Active?;
  }

  lemma SuccessResets(cfg: Config, c: Client, answer: Answer, now: int, stops: bool)
    requires c.heartbeat.Some? && IsSuccess(answer)
    ensures
      var d := HeartbeatAnswered(cfg, c, answer, now, stops);
      d.strikes == 0 && d.throttles == 0 && !d.protectedRetry && d.fatal == c.fatal
  {
  }

  lemma MissCounts(cfg: Config, c: Client, t: Timed, before: seq<Miss>)
    requires PhaseInv(c) && !Ending(c) && Counts(c, before)
    requires t.event.HeartbeatEnds? && c.heartbeat.Some? && !t.event.answer.Refused? && !IsSuccess(t.event.answer)
    ensures
      var d := HeartbeatAnswered(cfg, c, t.event.answer, t.now, t.event.stops);
      !d.fatal ==> Counts(d, NextMisses(cfg, c, t, before))
  {
    AnswerCounts(cfg, c, t.event.answer, t.now, t.event.stops);
    OneMoreMiss(before, NextMisses(cfg, c, t, before)[|before|]);
  }

  lemma RefusalEnds(cfg: Config, c: Client, t: Timed)
    requires t.event.HeartbeatEnds? && c.heartbeat.Some? && t.event.answer.Refused?
    ensures Handle(cfg, c, t).fatal
  {
  }

  lemma StepCounts(cfg: Config, c: Client, t: Timed, before: seq<Miss>)
    requires PhaseInv(c) && !Ending(c) && Counts(c, before)
    ensures !Ending(Handle(cfg, c, t)) ==> Counts(Handle(cfg, c, t), NextMisses(cfg, c, t, before))
  {
    if !t.event.HeartbeatEnds? {
      OtherEventsCountNothing(cfg, c, t);
    } else if c.heartbeat.Some? {
      if t.event.answer.Refused? {
        RefusalEnds(cfg, c, t);
      } else if IsSuccess(t.event.answer) {
        SuccessResets(cfg, c, t.event.answer, t.now, t.event.stops);
      } else {
        MissCounts(cfg, c, t, before);
      }
    }
  }

  lemma {:induction false} CountersMatchHistory(cfg: Config, history: seq<Timed>)
    requires Checked(cfg)
    ensures
      var c := After(cfg, Fresh(cfg), history);
      Inv(cfg, c) && (!Ending(c) ==> Counts(c, Misses(cfg, history)))
    decreases |history|
  {
    FreshHasInv(cfg);
    RunKeepsInv(cfg, Fresh(cfg), history);
    if history != [] {
      var n := |history| - 1;
      var c := After(cfg, Fresh(cfg), history[..n]);
      CountersMatchHistory(cfg, history[..n]);
      assert history[..n] + [history[n]] == history;
      Concatenated(cfg, Fresh(cfg), history[..n], [history[n]]);
      assert After(cfg, c, [history[n]]) == Handle(cfg, c, history[n]);
      if Ending(c) {
        EndingStays(cfg, c, history[n]);
      } else {
        StepCounts(cfg, c, history[n], Misses(cfg, history[..n]));
      }
    }
  }

  lemma EndingStays(cfg: Config, c: Client, t: Timed)
    requires Inv(cfg, c) && Ending(c)
    ensures Ending(Handle(cfg, c, t))
  {
    if t.event.HeartbeatEnds? {
      HeartbeatsKeepEnding(cfg, c, t);
    } else {
      OtherEventsKeepEnding(cfg, c, t);
    }
  }

  /**
   A heartbeat answer ends a client in service if and only if it is a refusal, the maxRetries-th
   failure since the last success, a throttle beyond maxRetries, or the second clamped throttle.
   */
  lemma FatalExactlyForCause(cfg: Config, history: seq<Timed>, answer: Answer, now: int, stops: bool)
    requires Checked(cfg) && !Ending(After(cfg, Fresh(cfg), history))
    requires After(cfg, Fresh(cfg), history).heartbeat.Some?
    ensures
      var c, misses := After(cfg, Fresh(cfg), history), Misses(cfg, history);
      HeartbeatAnswered(cfg, c, answer, now, stops).fatal <==>
        || answer.Refused?
        || (!answer.Throttled? && !IsSuccess(answer) && Failures(misses) + 1 >= cfg.maxRetries)
        || (answer.Throttled?
            && (|misses| - Failures(misses) + 1 > cfg.maxRetries
                || (IsClamped(cfg, c, answer.header, now) && Clamped(misses))))
  {
    CountersMatchHistory(cfg, history);
    var c := After(cfg, Fresh(cfg), history);
    if IsSuccess(answer) {
      SuccessResets(cfg, c, answer, now, stops);
    } else if !answer.Refused? {
      AnswerCounts(cfg, c, answer, now, stops);
    }
  }

  // ---------------------------------------------------------------- heartbeats before expiry

  /** The timer fires at most `lag` late, and requests end within the timeout. */
  ghost predicate Punctual(cfg: Config, lag: nat, c: Client, t: Timed)
  {
    && (c.timer.Some? ==> t.now <= c.timer.value + lag)
    && (c.timer.Some? && t.event.Fires? ==> c.timer.value <= t.now)
    && (c.heartbeat.Some? ==> c.heartbeat.value <= t.now <= c.heartbeat.value + cfg.timeoutMs)
    && (c.activation.Pending? ==> c.activation.startedAt <= t.now <= c.activation.startedAt + cfg.timeoutMs)
  }

  ghost predicate OnTime(cfg: Config, lag: nat, c: Client, history: seq<Timed>)
    decreases |history|
  {
    history != [] ==> Punctual(cfg, lag, c, history[0]) && OnTime(cfg, lag, Handle(cfg, c, history[0]), history[1..])
  }

  /** The latest start of the pending heartbeat, or the start of the open one. */
  function NextStart(c: Client, lag: nat): Option<int>
  {
    if c.timer.Some? then Some(c.timer.value + lag) else c.heartbeat
  }

  ghost predicate Healthy(cfg: Config, c: Client)
  {
    && c.phase.Active? && !c.fatal && c.received != []
    && Newest(c).ttlSeconds * 1_000 > RetryBudget(cfg, Newest(c).ttlSeconds)
  }

  ghost predicate TimingInv(cfg: Config, lag: nat, c: Client)
  {
    Healthy(cfg, c) && c.expiresAt.Some? && NextStart(c, lag).Some? ==>
      && (c.strikes + c.throttles == 0 ==>
            NextStart(c, lag).value + cfg.timeoutMs + RenewalSafety(Newest(c).ttlSeconds) <= c.expiresAt.value + lag)
      && (c.strikes + c.throttles == 1 && lag + 2 <= RenewalSafety(Newest(c).ttlSeconds) ==>
            NextStart(c, lag).value < c.expiresAt.value + lag)
  }

  lemma IssuedInTime(cfg: Config, ttlSeconds: int, startedAt: int, now: int)
    requires Checked(cfg) && AcceptedTtl(ttlSeconds) && now <= startedAt + cfg.timeoutMs
    requires ttlSeconds * 1_000 > RetryBudget(cfg, ttlSeconds)
    ensures now + HeartbeatInterval(cfg, ttlSeconds) + cfg.timeoutMs + RenewalSafety(ttlSeconds)
            <= startedAt + ttlSeconds * 1_000
  {
    IntervalBounds(cfg, ttlSeconds);
  }

  lemma RetryInTime(cfg: Config, lag: nat, c: Client, answer: Answer, now: int)
    requires Checked(cfg) && Inv(cfg, c) && TimingInv(cfg, lag, c) && Healthy(cfg, c)
    requires c.strikes + c.throttles == 0 && c.heartbeat.Some? && now <= c.heartbeat.value + cfg.timeoutMs
    requires lag + 2 <= RenewalSafety(Newest(c).ttlSeconds)
    requires !IsSuccess(answer) && !answer.Refused?
    ensures now + NextDelay(cfg, c, answer, now) < c.expiresAt.value
  {
    IntervalBounds(cfg, Newest(c).ttlSeconds);
    var desired := if answer.Throttled? then RequestedRetry(answer.header, c.interval, now) else c.interval;
    RetryStartsBeforeExpiry(cfg, desired, c.expiresAt.value, now);
  }

  lemma RenewalKeepsTiming(cfg: Config, lag: nat, c: Client, t: Timed)
    requires Checked(cfg) && Inv(cfg, c) && Punctual(cfg, lag, c, t)
    requires t.event.HeartbeatEnds? && c.heartbeat.Some? && IsSuccess(t.event.answer)
    ensures TimingInv(cfg, lag, Handle(cfg, c, t))
  {
    var ttlSeconds := t.event.answer.ttlSeconds;
    if ttlSeconds * 1_000 > RetryBudget(cfg, ttlSeconds) {
      IssuedInTime(cfg, ttlSeconds, c.heartbeat.value, t.now);
    }
  }

  lemma MissKeepsTiming(cfg: Config, lag: nat, c: Client, t: Timed)
    requires Checked(cfg) && Inv(cfg, c) && TimingInv(cfg, lag, c) && Punctual(cfg, lag, c, t)
    requires t.event.HeartbeatEnds? && c.heartbeat.Some? && !IsSuccess(t.event.answer)
    ensures TimingInv(cfg, lag, Handle(cfg, c, t))
  {
    var answer := t.event.answer;
    UnsuccessfulHeartbeat(cfg, c, answer, t.now, t.event.stops);
    if Healthy(cfg, c) && c.strikes + c.throttles == 0 && !answer.Refused?
       && lag + 2 <= RenewalSafety(Newest(c).ttlSeconds) {
      RetryInTime(cfg, lag, c, answer, t.now);
    }
  }

  lemma HeartbeatKeepsTiming(cfg: Config, lag: nat, c: Client, t: Timed)
    requires Checked(cfg) && Inv(cfg, c) && TimingInv(cfg, lag, c) && Punctual(cfg, lag, c, t)
    requires t.event.HeartbeatEnds?
    ensures TimingInv(cfg, lag, Handle(cfg, c, t))
  {
    if c.heartbeat.Some? {
      if IsSuccess(t.event.answer) {
        RenewalKeepsTiming(cfg, lag, c, t);
      } else {
        MissKeepsTiming(cfg, lag, c, t);
      }
    }
  }

  lemma GrantKeepsTiming(cfg: Config, lag: nat, c: Client, t: Timed)
    requires Checked(cfg) && Inv(cfg, c) && TimingInv(cfg, lag, c) && Punctual(cfg, lag, c, t)
    requires t.event.ActivationGranted?
    ensures TimingInv(cfg, lag, Handle(cfg, c, t))
  {
    if c.activation.Pending? && AcceptedTtl(t.event.ttlSeconds) {
      if t.event.ttlSeconds * 1_000 > RetryBudget(cfg, t.event.ttlSeconds) {
        IssuedInTime(cfg, t.event.ttlSeconds, c.activation.startedAt, t.now);
      }
    }
  }

  /** The next start of `d` is no later than that of `c`. */
  ghost predicate StartsBy(d: Client, c: Client, lag: nat)
    requires NextStart(d, lag).Some?
  {
    NextStart(c, lag).Some? && NextStart(d, lag).value <= NextStart(c, lag).value
  }

  lemma OthersKeepStart(cfg: Config, lag: nat, c: Client, t: Timed)
    requires Inv(cfg, c) && Punctual(cfg, lag, c, t)
    requires !t.event.HeartbeatEnds? && !t.event.ActivationGranted?
    ensures
      var d := Handle(cfg, c, t);
      d.phase.Active? && !d.fatal ==>
        && c.phase.Active? && !c.fatal && d.received == c.received && d.expiresAt == c.expiresAt
        && (NextStart(d, lag).Some? ==> StartsBy(d, c, lag))
  {
    match t.event
    case Activates =>
    case ActivationRefused(_) =>
    case ActivationForgotten =>
    case ActivationGranted(_, _, _) =>
    case Consumes =>
    case UsageEnds(_, _, _) =>
    case Fires =>
    case Stops =>
    case CleanupRuns =>
    case ReleaseBegins =>
    case ReleaseEnds =>
  }

  lemma OthersKeepTiming(cfg: Config, lag: nat, c: Client, t: Timed)
    requires Inv(cfg, c) && TimingInv(cfg, lag, c) && Punctual(cfg, lag, c, t)
    requires !t.event.HeartbeatEnds? && !t.event.ActivationGranted?
    ensures TimingInv(cfg, lag, Handle(cfg, c, t))
  {
    OtherEventsCountNothing(cfg, c, t);
    OthersKeepStart(cfg, lag, c, t);
  }

  lemma HandleKeepsTiming(cfg: Config, lag: nat, c: Client, t: Timed)
    requires Checked(cfg) && Inv(cfg, c) && TimingInv(cfg, lag, c) && Punctual(cfg, lag, c, t)
    ensures TimingInv(cfg, lag, Handle(cfg, c, t))
  {
    if t.event.HeartbeatEnds? {
      HeartbeatKeepsTiming(cfg, lag, c, t);
    } else if t.event.ActivationGranted? {
      GrantKeepsTiming(cfg, lag, c, t);
    } else {
      OthersKeepTiming(cfg, lag, c, t);
    }
  }

  lemma {:induction false} RunKeepsTiming(cfg: Config, lag: nat, c: Client, history: seq<Timed>)
    requires Checked(cfg) && Inv(cfg, c) && TimingInv(cfg, lag, c) && OnTime(cfg, lag, c, history)
    ensures TimingInv(cfg, lag, After(cfg, c, history))
    decreases |history|
  {
    if history != [] {
      HandleKeepsTiming(cfg, lag, c, history[0]);
      HandleKeepsInv(cfg, c, history[0]);
      RunKeepsTiming(cfg, lag, Handle(cfg, c, history[0]), history[1..]);
    }
  }

  /**
   In every run whose timers fire at most `lag` late, a session longer than the retry budget is
   renewed in time: the heartbeat after a success ends at least the safety margin before expiry,
   less the lag, and if it fails without ending the client, its retry is due before expiry as
   long as the lag stays two milliseconds below the margin.
   */
  lemma HeartbeatsBeatExpiry(cfg: Config, lag: nat, history: seq<Timed>)
    requires Checked(cfg) && OnTime(cfg, lag, Fresh(cfg), history)
    ensures
      var c := After(cfg, Fresh(cfg), history);
      Healthy(cfg, c) ==>
        && NextStart(c, lag).Some? && c.expiresAt.Some?
        && (c.strikes + c.throttles == 0 ==>
              NextStart(c, lag).value + cfg.timeoutMs + RenewalSafety(Newest(c).ttlSeconds) <= c.expiresAt.value + lag)
        && (c.strikes + c.throttles == 1 && lag + 2 <= RenewalSafety(Newest(c).ttlSeconds) && c.timer.Some? ==>
              c.timer.value < c.expiresAt.value)
  {
    FreshHasInv(cfg);
    RunKeepsInv(cfg, Fresh(cfg), history);
    RunKeepsTiming(cfg, lag, Fresh(cfg), history);
    assert TimingInv(cfg, lag, After(cfg, Fresh(cfg), history));
  }

  // ---------------------------------------------------------------- what each event sends

  lemma ThrottleSendsNothing(cfg: Config, c: Client, clamped: bool, stops: bool)
    ensures ThrottleCounted(cfg, c, clamped, stops).sent == c.sent
  {
  }

  lemma SettleSendsNothing(cfg: Config, c: Client, answer: Answer, startedAt: int, now: int, stops: bool)
    ensures Settle(cfg, c, answer, startedAt, now, stops).sent == c.sent
  {
    if IsSuccess(answer) {
      assert Renew(cfg, c, answer.token, answer.ttlSeconds, startedAt, stops).sent == c.sent;
    } else if answer.Throttled? {
      ThrottleSendsNothing(cfg, c, IsClamped(cfg, c, answer.header, now), stops);
    } else if !answer.Refused? {
      assert RecordFailure(cfg, c, stops).sent == c.sent;
    }
  }

  lemma HeartbeatSendsNothing(cfg: Config, c: Client, answer: Answer, now: int, stops: bool)
    ensures HeartbeatAnswered(cfg, c, answer, now, stops).sent == c.sent
  {
    if c.heartbeat.Some? {
      var settled := Settle(cfg, c.(heartbeat := None), answer, c.heartbeat.value, now, stops);
      SettleSendsNothing(cfg, c.(heartbeat := None), answer, c.heartbeat.value, now, stops);
      assert Continue(settled, NextDelay(cfg, c, answer, now), now).sent == settled.sent;
    }
  }

  /**
   In every reachable state an event sends exactly one request or none: an activation from an idle
   client, a usage report while active, a heartbeat when a timer fires, the release once nothing is
   outstanding, each but the first with the newest token.
   */
  lemma RequestsAreExact(cfg: Config, history: seq<Timed>, t: Timed)
    requires Checked(cfg)
    ensures var c := After(cfg, Fresh(cfg), history);
            c.phase.Active? || c.timer.Some? || c.token.Some? ==> c.received != []
    ensures
      var c := After(cfg, Fresh(cfg), history);
      var more := Handle(cfg, c, t).sent;
      match t.event
      case Activates => more == c.sent + (if c.phase == Idle && c.activation == NotCalled then [ToActivate] else [])
      case Consumes => more == c.sent + (if c.phase == Active then [ToUsage(Newest(c).token)] else [])
      case Fires => more == c.sent + (if c.timer.Some? then [ToHeartbeat(Newest(c).token)] else [])
      case ReleaseBegins =>
        var ready := c.deactivation == Waiting && !c.activation.Pending? && c.heartbeat == None && c.usage == 0;
        more == c.sent + (if ready && c.token.Some? then [ToRelease(Newest(c).token)] else [])
      case _ => more == c.sent
  {
    FreshHasInv(cfg);
    RunKeepsInv(cfg, Fresh(cfg), history);
    if t.event.HeartbeatEnds? {
      HeartbeatSendsNothing(cfg, After(cfg, Fresh(cfg), history), t.event.answer, t.now, t.event.stops);
    }
  }

  /** After an answer that leaves the client in service the next heartbeat is due exactly one delay later. */
  lemma NextHeartbeatIsDue(cfg: Config, c: Client, answer: Answer, now: int)
    requires c.heartbeat.Some? && c.phase.Active?
    ensures
      var after := Handle(cfg, c, Timed(HeartbeatEnds(answer, false), now));
      !after.fatal ==>
        after.timer == Some(now +
                            (if answer.Success? && AcceptedTtl(answer.ttlSeconds) then HeartbeatInterval(cfg, answer.ttlSeconds)
                             else if answer.Throttled? then
                               RetryDelay(cfg, RequestedRetry(answer.header, c.interval, now), c.expiresAt, now)
                             else RetryDelay(cfg, c.interval, c.expiresAt, now)))
  {
  }

  /** A usage answer settles one report, and it ends the client exactly if it is a fatal rejection. */
  lemma UsageIsFatalIff(cfg: Config, c: Client, rejected: bool, isFatal: bool, stops: bool, now: int)
    requires c.usage > 0
    ensures
      var after := Handle(cfg, c, Timed(UsageEnds(rejected, isFatal, stops), now));
      && after.usage == c.usage - 1
      && (after.fatal <==> c.fatal || (rejected && isFatal))
      && (after.cleanupQueued <==> c.cleanupQueued || (!c.fatal && rejected && isFatal))
  {
  }

  /** A failed activation can be repeated: its rejection is forgotten and the next call sends a request again. */
  lemma FailedActivationRetries(cfg: Config, c: Client, now: int)
    requires Inv(cfg, c) && c.phase.Activating?
    ensures
      var failed := Handle(cfg, c, Timed(ActivationRefused(false), now));
      var ready := Handle(cfg, failed, Timed(ActivationForgotten, now));
      var again := Handle(cfg, ready, Timed(Activates, now));
      && failed.phase.Idle? && ready.activation.NotCalled?
      && again.phase.Activating? && again.sent == c.sent + [ToActivate]
  {
  }

  // ---------------------------------------------------------------- deactivation completes

  /** The answers that settle what is outstanding. */
  function Answers(c: Client, now: int): seq<Timed>
  {
    (if c.activation.Pending? then [Timed(ActivationRefused(false), now)] else [])
    + (if c.heartbeat.Some? then [Timed(HeartbeatEnds(Failure, false), now)] else [])
    + seq(c.usage, _ => Timed(UsageEnds(false, false, false), now))
  }

  lemma {:induction false} UsageSettles(cfg: Config, c: Client, now: int)
    ensures After(cfg, c, seq(c.usage, _ => Timed(UsageEnds(false, false, false), now))) == c.(usage := 0)
    decreases c.usage
  {
    var reports := seq(c.usage, _ => Timed(UsageEnds(false, false, false), now));
    if c.usage > 0 {
      var d := c.(usage := c.usage - 1);
      assert Handle(cfg, c, reports[0]) == d;
      assert reports[1..] == seq(d.usage, _ => Timed(UsageEnds(false, false, false), now));
      UsageSettles(cfg, d, now);
    }
  }

  lemma OneEvent(cfg: Config, c: Client, t: Timed)
    ensures After(cfg, c, [t]) == Handle(cfg, c, t)
  {
    assert [t][1..] == [];
  }

  lemma StoppedAnswers(cfg: Config, c: Client, now: int)
    requires c.deactivation.Waiting? && !c.phase.Activating? && !c.phase.Active?
    ensures
      var d := After(cfg, c, Answers(c, now));
      !Outstanding(d) && d.deactivation.Waiting? && d.token == c.token && d.sent == c.sent
  {
    var activation := if c.activation.Pending? then [Timed(ActivationRefused(false), now)] else [];
    var heartbeat := if c.heartbeat.Some? then [Timed(HeartbeatEnds(Failure, false), now)] else [];
    var reports := seq(c.usage, _ => Timed(UsageEnds(false, false, false), now));
    var a := if c.activation.Pending? then c.(activation := Rejected) else c;
    var b := a.(heartbeat := None);
    if c.activation.Pending? {
      OneEvent(cfg, c, activation[0]);
    }
    assert After(cfg, c, activation) == a;
    if c.heartbeat.Some? {
      OneEvent(cfg, a, heartbeat[0]);
    }
    assert After(cfg, a, heartbeat) == b;
    Concatenated(cfg, c, activation, heartbeat);
    Concatenated(cfg, c, activation + heartbeat, reports);
    UsageSettles(cfg, b, now);
  }

  /** A granted activation brings the client into service: the token is held and the first heartbeat is due. */
  lemma GrantedActivationServes(cfg: Config, c: Client, token: string, ttlSeconds: int, now: int)
    requires c.phase.Activating? && c.activation.Pending? && AcceptedTtl(ttlSeconds)
    ensures
      var d := Handle(cfg, c, Timed(ActivationGranted(token, ttlSeconds, false), now));
      && d.phase == Active && d.activation == Resolved && d.token == Some(token)
      && d.expiresAt == Some(c.activation.startedAt + ttlSeconds * 1_000)
      && d.timer == Some(now + HeartbeatInterval(cfg, ttlSeconds))
  {
  }

  /** What begins a deactivation: the application, or the cleanup that a fatal answer queued. */
  ghost predicate Begins(c: Client, t: Timed)
  {
    t.event.Stops? || (t.event.CleanupRuns? && c.cleanupQueued)
  }

  /**
   Deactivation completes: in every reachable state, once the application or a fatal answer has
   begun it, the timer is off, and the answers to what is outstanding and to the release bring the
   client to its end, after releasing the token it still holds.
   */
  lemma DeactivationCompletes(cfg: Config, history: seq<Timed>, begin: Timed, now: int)
    requires Checked(cfg) && Begins(After(cfg, Fresh(cfg), history), begin)
    ensures
      var c := After(cfg, Fresh(cfg), history + [begin]);
      var d := After(cfg, c, Answers(c, now) + [Timed(ReleaseBegins, now), Timed(ReleaseEnds, now)]);
      && (c.phase == Deactivating || c.phase == Deactivated) && c.timer == None
      && d.phase == Deactivated && d.token == None
      && d.sent == c.sent + (if c.deactivation == Waiting && c.token.Some? then [ToRelease(c.token.value)] else [])
  {
    FreshHasInv(cfg);
    RunKeepsInv(cfg, Fresh(cfg), history);
    RunKeepsInv(cfg, Fresh(cfg), history + [begin]);
    Concatenated(cfg, Fresh(cfg), history, [begin]);
    OneEvent(cfg, After(cfg, Fresh(cfg), history), begin);
    var c := After(cfg, Fresh(cfg), history + [begin]);
    Completes(cfg, c, now);
  }

  lemma Completes(cfg: Config, c: Client, now: int)
    requires Inv(cfg, c) && !c.deactivation.NotStarted?
    ensures
      var d := After(cfg, c, Answers(c, now) + [Timed(ReleaseBegins, now), Timed(ReleaseEnds, now)]);
      && d.phase == Deactivated && d.token == None
      && d.sent == c.sent + (if c.deactivation.Waiting? && c.token.Some? then [ToRelease(c.token.value)] else [])
  {
    var d := After(cfg, c, Answers(c, now));
    if c.deactivation.Waiting? {
      StoppedAnswers(cfg, c, now);
    } else {
      assert Answers(c, now) == [];
      assert d == c;
    }
    Concatenated(cfg, c, Answers(c, now), [Timed(ReleaseBegins, now), Timed(ReleaseEnds, now)]);
    TwoEvents(cfg, d, Timed(ReleaseBegins, now), Timed(ReleaseEnds, now));
  }
}
