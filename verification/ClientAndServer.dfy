/**
 The client and the server together, under one clock: the client of LicenseClient whose requests
 the machine of Fencing serves, among everything else that machine does. A client whose timers
 and requests are punctual and whose heartbeats succeed never lets its session lapse.
 */
module ClientAndServer {
  import opened Wrappers
  import opened SessionCodec
  import opened SessionStore
  import opened SessionIndex
  import opened LicenseStatus
  import Admission
  import opened Fencing
  import opened FencingRuns
  import opened HeartbeatTiming
  import LC = LicenseClient
  import CR = LicenseClientRuns

  const SESSION_TTL_SECONDS: int := 45

  /**
   `issuedBefore` are the tokens issued when the client asked for its activation, and `renewed`
   says whether the server has refreshed the session since the open heartbeat was sent.
   */
  datatype World = World(server: State, client: LC.Client, issuedBefore: set<string>, renewed: bool)

  datatype Move = ServerMoves(step: Step) | ClientMoves(event: CR.Event)

  /** The client's options, how late its timers fire at most, and the token its activation is granted. */
  datatype Setting = Setting(cfg: Config, lag: nat, token: string)

  ghost predicate Renews(s: State, step: Step, token: string)
  {
    step.RefreshSession? && step.token == token && token in At(s.redis, s.now).keys
    && token in s.issued && s.issued[token].binding == step.binding
  }

  /** Timers fire at most `lag` late and requests end within the timeout, so the clock may not pass these. */
  ghost predicate Timely(cfg: Config, lag: nat, c: LC.Client, now: int)
  {
    && (c.timer.Some? ==> now <= c.timer.value + lag)
    && (c.heartbeat.Some? ==> c.heartbeat.value <= now <= c.heartbeat.value + cfg.timeoutMs)
    && (c.activation.Pending? ==> c.activation.startedAt <= now <= c.activation.startedAt + cfg.timeoutMs)
  }

  /**
   The server grants a session it registered after the activation was sent, and answers a
   heartbeat with success and the same token after it has refreshed the session for it.
   */
  ghost predicate Answerable(z: Setting, w: World, event: CR.Event)
  {
    match event
    case Fires => w.client.timer.Some? ==> w.client.timer.value <= w.server.now
    case ActivationGranted(token, ttlSeconds, _) =>
      w.client.activation.Pending? ==>
        && token == z.token && ttlSeconds == SESSION_TTL_SECONDS
        && token in w.server.issued && token !in w.issuedBefore
    case HeartbeatEnds(answer, _) =>
      w.client.heartbeat.Some? ==> answer == LC.Success(z.token, SESSION_TTL_SECONDS) && w.renewed
    case _ => true
  }

  /** No step removes the session under its own binding, or raises or deletes its license. */
  ghost predicate Harmless(z: Setting, s: State, step: Step)
  {
    z.token in s.issued ==> !Concerns(s, step, z.token, s.issued[z.token].license)
  }

  ghost predicate Possible(z: Setting, w: World, m: Move)
  {
    match m
    case ServerMoves(step) =>
      && Fencing.Next(w.server, step).Some? && Harmless(z, w.server, step)
      && (step.Tick? ==> Timely(z.cfg, z.lag, w.client, step.to))
    case ClientMoves(event) => Answerable(z, w, event)
  }

  ghost function Next(z: Setting, w: World, m: Move): World
    requires Possible(z, w, m)
  {
    match m
    case ServerMoves(step) =>
      w.(server := Fencing.Next(w.server, step).value, renewed := w.renewed || Renews(w.server, step, z.token))
    case ClientMoves(event) =>
      World(w.server, CR.Handle(z.cfg, w.client, CR.Timed(event, w.server.now)),
            if event.Activates? && w.client.activation.NotCalled? then w.server.issued.Keys else w.issuedBefore,
            w.renewed && !(event.Fires? && w.client.timer.Some?))
  }

  ghost predicate Run(z: Setting, worlds: seq<World>, moves: seq<Move>)
  {
    && |worlds| == |moves| + 1 && Init(worlds[0].server) && worlds[0].client == LC.Fresh(z.cfg)
    && forall i | 0 <= i < |moves| :: Possible(z, worlds[i], moves[i]) && worlds[i + 1] == Next(z, worlds[i], moves[i])
  }

  /** Options that leave room for two requests and the safety margin in a session of the server. */
  ghost predicate Fits(z: Setting)
  {
    Checked(z.cfg) && 2 * z.cfg.timeoutMs + 1_000 < SESSION_TTL_MS && z.lag < 1_000
  }

  // ---------------------------------------------------------------- the invariant

  predicate InService(c: LC.Client)
  {
    c.phase.Active? && !c.fatal
  }

  ghost predicate ClientInv(z: Setting, c: LC.Client, now: int)
  {
    && CR.Inv(z.cfg, c) && CR.TimingInv(z.cfg, z.lag, c) && Timely(z.cfg, z.lag, c, now)
    && c.strikes == 0 && c.throttles == 0
    && (c.received != [] ==> CR.Newest(c).token == z.token && CR.Newest(c).ttlSeconds == SESSION_TTL_SECONDS)
  }

  /** The session is current, and Redis keeps it at least until then. */
  ghost predicate LivesUntil(s: State, token: string, until: int)
  {
    Current(s, token) && s.redis.keys[token].expiresAt >= until
  }

  ghost predicate SessionInv(z: Setting, w: World)
  {
    && (w.client.activation.Pending? && z.token in w.server.issued && z.token !in w.issuedBefore ==>
          LivesUntil(w.server, z.token, w.client.activation.startedAt + SESSION_TTL_MS))
    && (InService(w.client) ==>
          w.client.expiresAt.Some? && LivesUntil(w.server, z.token, w.client.expiresAt.value))
    && (InService(w.client) && w.client.heartbeat.Some? && w.renewed ==>
          LivesUntil(w.server, z.token, w.client.heartbeat.value + SESSION_TTL_MS))
  }

  ghost predicate WorldInv(z: Setting, w: World)
  {
    Inv(w.server) && ClientInv(z, w.client, w.server.now) && SessionInv(z, w)
  }

  // ---------------------------------------------------------------- moves of the server

  /** As long as the client is punctual, the clock stays before its idea of the expiry. */
  lemma ClockBeforeExpiry(z: Setting, c: LC.Client, now: int, to: int)
    requires Fits(z) && ClientInv(z, c, now) && InService(c) && c.expiresAt.Some? && Timely(z.cfg, z.lag, c, to)
    ensures to < c.expiresAt.value
  {
    assert CR.Newest(c).ttlSeconds == SESSION_TTL_SECONDS;
    assert CR.Healthy(z.cfg, c);
  }

  lemma NextSpares(z: Setting, s: State, step: Step, s': State, until: int, before: int)
    requires Inv(s) && Fencing.Next(s, step) == Some(s') && Harmless(z, s, step)
    requires LivesUntil(s, z.token, until) && (step.Tick? ==> step.to < until)
    requires before <= until
    ensures LivesUntil(s', z.token, before)
  {
    StepSparesCurrent(s, step, s', z.token);
  }

  /** A session that was just reserved is current, for the server's lifetime from now. */
  lemma ReservedLives(s: State, p: nat, token: string, s': State)
    requires Fencing.Next(s, Reserve(p, token)) == Some(s') && token in s'.issued
    requires p in s.requests && s.requests[p].Admitted? && s.requests[p].license in s.rows
    requires s.rows[s.requests[p].license].revision == s.requests[p].revision
    ensures LivesUntil(s', token, s.now + SESSION_TTL_MS) && s'.now == s.now
  {
    ReserveStep(s, p, token);
    ReserveEnds(s, p, token);
    RegisteredLives(s, s.requests[p], token);
  }

  lemma RegisteredLives(s: State, r: Request, token: string)
    requires r.Admitted?
    ensures var (after, ok) := Register(s.redis, r.license, r.revision, r.binding, token, r.maxSessions, s.now);
            ok ==> token in At(after, s.now).keys && after.keys[token].expiresAt == s.now + SESSION_TTL_MS
  {
  }

  lemma NewlyIssued(s: State, step: Step, s': State, token: string)
    requires Fencing.Next(s, step) == Some(s') && token !in s.issued && token in s'.issued
    ensures step.Reserve? && step.token == token
  {
  }

  lemma RenewedLives(s: State, step: Step, s': State, token: string)
    requires Inv(s) && Fencing.Next(s, step) == Some(s') && Renews(s, step, token) && Current(s, token)
    ensures LivesUntil(s', token, s.now + SESSION_TTL_MS)
  {
    RefreshStep(s, step.p, token, step.binding);
    var i := s.issued[token];
    assert NotAhead(s.rows, i);
    RefreshedLives(s.redis, i, token, s.now);
  }

  lemma RefreshedLives(redis: Store, i: Issue, token: string, now: int)
    requires LicenseId(i.license) && token in At(redis, now).keys
    requires redis.keys[token].value == Encode(i.license, i.revision, i.binding)
    ensures var after := Refresh(redis, token, i.binding, now).0;
            token in At(after, now).keys && after.keys[token].expiresAt == now + SESSION_TTL_MS
  {
    LicenseOfEncoded(i.license, i.revision, i.binding);
  }

  lemma OnlyTicksMoveClock(s: State, step: Step, s': State)
    requires Fencing.Next(s, step) == Some(s')
    ensures if step.Tick? then s'.now == step.to >= s.now else s'.now == s.now
  {
  }

  lemma PendingStays(z: Setting, w: World, step: Step)
    requires Fits(z) && WorldInv(z, w) && Possible(z, w, ServerMoves(step)) && w.client.activation.Pending?
    ensures
      var s' := Fencing.Next(w.server, step).value;
      z.token in s'.issued && z.token !in w.issuedBefore ==>
        LivesUntil(s', z.token, w.client.activation.startedAt + SESSION_TTL_MS)
  {
    var s' := Fencing.Next(w.server, step).value;
    var until := w.client.activation.startedAt + SESSION_TTL_MS;
    if z.token in s'.issued && z.token !in w.issuedBefore {
      if z.token in w.server.issued {
        NextSpares(z, w.server, step, s', until, until);
      } else {
        NewlyIssued(w.server, step, s', z.token);
        ReserveStep(w.server, step.p, z.token);
        SoundAt(w.server, step.p);
        ReservedLives(w.server, step.p, z.token, s');
      }
    }
  }

  lemma ServiceStays(z: Setting, w: World, step: Step)
    requires Fits(z) && WorldInv(z, w) && Possible(z, w, ServerMoves(step)) && InService(w.client)
    ensures
      var w' := Next(z, w, ServerMoves(step));
      && LivesUntil(w'.server, z.token, w.client.expiresAt.value)
      && (w.client.heartbeat.Some? && w'.renewed ==>
            LivesUntil(w'.server, z.token, w.client.heartbeat.value + SESSION_TTL_MS))
  {
    var s' := Fencing.Next(w.server, step).value;
    if step.Tick? {
      ClockBeforeExpiry(z, w.client, w.server.now, step.to);
    }
    NextSpares(z, w.server, step, s', w.client.expiresAt.value, w.client.expiresAt.value);
    if w.client.heartbeat.Some? {
      if Renews(w.server, step, z.token) {
        RenewedLives(w.server, step, s', z.token);
      } else if w.renewed {
        LongestLives(z, w, step, s');
      }
    }
  }

  lemma LongestLives(z: Setting, w: World, step: Step, s': State)
    requires Fits(z) && WorldInv(z, w) && Possible(z, w, ServerMoves(step)) && InService(w.client)
    requires Fencing.Next(w.server, step) == Some(s') && w.client.heartbeat.Some? && w.renewed
    ensures LivesUntil(s', z.token, w.client.heartbeat.value + SESSION_TTL_MS)
  {
    var until := w.client.heartbeat.value + SESSION_TTL_MS;
    NextSpares(z, w.server, step, s', until, until);
  }

  lemma ServerKeepsInv(z: Setting, w: World, step: Step)
    requires Fits(z) && WorldInv(z, w) && Possible(z, w, ServerMoves(step))
    ensures WorldInv(z, Next(z, w, ServerMoves(step)))
  {
    var s' := Fencing.Next(w.server, step).value;
    StepKeepsInv(w.server, step, s');
    OnlyTicksMoveClock(w.server, step, s');
    if w.client.activation.Pending? {
      PendingStays(z, w, step);
    }
    if InService(w.client) {
      ServiceStays(z, w, step);
    }
  }

  // ---------------------------------------------------------------- moves of the client

  /** Grants and successful heartbeats arm the timer for later; no other event arms it. */
  lemma HandleIsTimely(z: Setting, w: World, event: CR.Event)
    requires Fits(z) && WorldInv(z, w) && Answerable(z, w, event)
    ensures Timely(z.cfg, z.lag, CR.Handle(z.cfg, w.client, CR.Timed(event, w.server.now)), w.server.now)
  {
    if event.HeartbeatEnds? {
      if w.client.heartbeat.Some? {
        RenewalIsTimely(z, w, event);
      }
    } else if event.ActivationGranted? {
      GrantIsTimely(z, w, event);
    } else {
      OthersAreTimely(z, w, event);
    }
  }

  /** The event leaves what the client waits for alone, ends it, or starts it now or for later. */
  ghost predicate ArmsLater(c: LC.Client, d: LC.Client, now: int)
  {
    && (d.timer.Some? ==> d.timer == c.timer || d.timer.value >= now)
    && (d.heartbeat.Some? ==> d.heartbeat == c.heartbeat || d.heartbeat.value == now)
    && (d.activation.Pending? ==> d.activation == c.activation || d.activation.startedAt == now)
  }

  lemma ActivationArms(c: LC.Client, now: int, stops: bool)
    ensures ArmsLater(c, LC.CallActivate(c, now), now)
    ensures ArmsLater(c, LC.ActivationFailed(c, stops), now)
  {
  }

  lemma GrantArms(cfg: Config, c: LC.Client, token: string, ttlSeconds: int, now: int, stops: bool)
    requires AcceptedTtl(ttlSeconds) ==> HeartbeatInterval(cfg, ttlSeconds) >= 0
    ensures ArmsLater(c, LC.ActivationAnswered(cfg, c, token, ttlSeconds, now, stops), now)
  {
  }

  lemma UsageArms(c: LC.Client, rejected: bool, isFatal: bool, stops: bool, now: int)
    ensures ArmsLater(c, LC.UsageAnswered(c, rejected, isFatal, stops), now)
  {
  }

  lemma RestArms(cfg: Config, c: LC.Client, t: CR.Timed)
    requires t.event.ActivationForgotten? || t.event.Consumes? || t.event.Fires? || t.event.Stops?
             || t.event.CleanupRuns? || t.event.ReleaseBegins? || t.event.ReleaseEnds?
    ensures ArmsLater(c, CR.Handle(cfg, c, t), t.now)
  {
  }

  lemma OthersArm(cfg: Config, c: LC.Client, t: CR.Timed)
    requires !t.event.HeartbeatEnds? && !t.event.ActivationGranted?
    ensures ArmsLater(c, CR.Handle(cfg, c, t), t.now)
  {
    match t.event {
      case Activates => ActivationArms(c, t.now, false);
      case ActivationRefused(stops) => ActivationArms(c, t.now, stops);
      case UsageEnds(rejected, isFatal, stops) => UsageArms(c, rejected, isFatal, stops, t.now);
      case _ => RestArms(cfg, c, t);
    }
  }

  lemma StaysTimely(cfg: Config, lag: nat, c: LC.Client, d: LC.Client, now: int)
    requires Checked(cfg) && Timely(cfg, lag, c, now) && ArmsLater(c, d, now)
    ensures Timely(cfg, lag, d, now)
  {
  }

  lemma OthersAreTimely(z: Setting, w: World, event: CR.Event)
    requires Timely(z.cfg, z.lag, w.client, w.server.now) && Checked(z.cfg)
    requires !event.HeartbeatEnds? && !event.ActivationGranted?
    ensures Timely(z.cfg, z.lag, CR.Handle(z.cfg, w.client, CR.Timed(event, w.server.now)), w.server.now)
  {
    var t := CR.Timed(event, w.server.now);
    OthersArm(z.cfg, w.client, t);
    StaysTimely(z.cfg, z.lag, w.client, CR.Handle(z.cfg, w.client, t), w.server.now);
  }

  lemma GrantIsTimely(z: Setting, w: World, event: CR.Event)
    requires Checked(z.cfg) && Timely(z.cfg, z.lag, w.client, w.server.now)
    requires Answerable(z, w, event) && event.ActivationGranted?
    ensures Timely(z.cfg, z.lag, CR.Handle(z.cfg, w.client, CR.Timed(event, w.server.now)), w.server.now)
  {
    if AcceptedTtl(event.ttlSeconds) {
      IntervalBounds(z.cfg, event.ttlSeconds);
    }
    GrantArms(z.cfg, w.client, event.token, event.ttlSeconds, w.server.now, event.stops);
  }

  lemma RenewalArms(cfg: Config, c: LC.Client, token: string, ttlSeconds: int, now: int, stops: bool)
    requires AcceptedTtl(ttlSeconds) && c.heartbeat.Some? && HeartbeatInterval(cfg, ttlSeconds) >= 0
    ensures ArmsLater(c, LC.HeartbeatAnswered(cfg, c, LC.Success(token, ttlSeconds), now, stops), now)
  {
  }

  lemma RenewalIsTimely(z: Setting, w: World, event: CR.Event)
    requires Checked(z.cfg) && Timely(z.cfg, z.lag, w.client, w.server.now)
    requires Answerable(z, w, event) && event.HeartbeatEnds? && w.client.heartbeat.Some?
    ensures Timely(z.cfg, z.lag, CR.Handle(z.cfg, w.client, CR.Timed(event, w.server.now)), w.server.now)
  {
    IntervalBounds(z.cfg, SESSION_TTL_SECONDS);
    RenewalArms(z.cfg, w.client, z.token, SESSION_TTL_SECONDS, w.server.now, event.stops);
  }

  lemma HandleKeepsNewest(z: Setting, w: World, event: CR.Event)
    requires WorldInv(z, w) && Answerable(z, w, event)
    ensures
      var d := CR.Handle(z.cfg, w.client, CR.Timed(event, w.server.now));
      && d.strikes == 0 && d.throttles == 0
      && (d.received != [] ==> CR.Newest(d).token == z.token && CR.Newest(d).ttlSeconds == SESSION_TTL_SECONDS)
  {
    var t := CR.Timed(event, w.server.now);
    if event.HeartbeatEnds? {
      if w.client.heartbeat.Some? {
        CR.SuccessResets(z.cfg, w.client, event.answer, t.now, event.stops);
      }
    } else {
      CR.OtherEventsCountNothing(z.cfg, w.client, t);
      OthersReceive(z, w, event);
    }
  }

  lemma OthersReceive(z: Setting, w: World, event: CR.Event)
    requires !event.HeartbeatEnds?
    ensures
      var c, d := w.client, CR.Handle(z.cfg, w.client, CR.Timed(event, w.server.now));
      || d.received == c.received
      || (event.ActivationGranted? && c.activation.Pending?
          && d.received == c.received + [LC.Grant(event.token, event.ttlSeconds, c.activation.startedAt)])
  {
    if event.ActivationGranted? {
      GrantReceives(z.cfg, w.client, event.token, event.ttlSeconds, w.server.now, event.stops);
    }
  }

  lemma GrantReceives(cfg: Config, c: LC.Client, token: string, ttlSeconds: int, now: int, stops: bool)
    ensures
      var d := LC.ActivationAnswered(cfg, c, token, ttlSeconds, now, stops);
      || d.received == c.received
      || (c.activation.Pending? && d.received == c.received + [LC.Grant(token, ttlSeconds, c.activation.startedAt)])
  {
  }

  lemma ClientKeepsClientInv(z: Setting, w: World, event: CR.Event)
    requires Fits(z) && WorldInv(z, w) && Answerable(z, w, event)
    ensures ClientInv(z, CR.Handle(z.cfg, w.client, CR.Timed(event, w.server.now)), w.server.now)
  {
    var t := CR.Timed(event, w.server.now);
    CR.HandleKeepsInv(z.cfg, w.client, t);
    CR.HandleKeepsTiming(z.cfg, z.lag, w.client, t);
    HandleIsTimely(z, w, event);
    HandleKeepsNewest(z, w, event);
  }

  lemma RenewalServes(cfg: Config, c: LC.Client, token: string, ttlSeconds: int, now: int, stops: bool)
    requires AcceptedTtl(ttlSeconds) && c.heartbeat.Some?
    ensures
      var d := LC.HeartbeatAnswered(cfg, c, LC.Success(token, ttlSeconds), now, stops);
      && d.activation == c.activation && d.heartbeat.None? && (InService(d) ==> InService(c))
      && d.expiresAt == Some(c.heartbeat.value + ttlSeconds * 1_000)
  {
  }

  lemma RenewalService(z: Setting, w: World, event: CR.Event)
    requires Answerable(z, w, event) && event.HeartbeatEnds? && w.client.heartbeat.Some?
    ensures
      var d := CR.Handle(z.cfg, w.client, CR.Timed(event, w.server.now));
      && d.activation == w.client.activation && d.heartbeat.None?
      && (InService(d) ==> InService(w.client)) && d.expiresAt == Some(w.client.heartbeat.value + SESSION_TTL_MS)
  {
    RenewalServes(z.cfg, w.client, z.token, SESSION_TTL_SECONDS, w.server.now, event.stops);
  }

  lemma GrantServes(cfg: Config, c: LC.Client, token: string, ttlSeconds: int, now: int, stops: bool)
    requires AcceptedTtl(ttlSeconds) && c.activation.Pending? && c.heartbeat.None?
    ensures
      var d := LC.ActivationAnswered(cfg, c, token, ttlSeconds, now, stops);
      && !d.activation.Pending? && d.heartbeat.None?
      && d.expiresAt == Some(c.activation.startedAt + ttlSeconds * 1_000)
  {
  }

  lemma GrantService(z: Setting, w: World, event: CR.Event)
    requires Answerable(z, w, event) && event.ActivationGranted?
    requires w.client.activation.Pending? ==> w.client.heartbeat.None?
    ensures
      var d := CR.Handle(z.cfg, w.client, CR.Timed(event, w.server.now));
      if w.client.activation.Pending? then
        && !d.activation.Pending? && d.heartbeat.None?
        && d.expiresAt == Some(w.client.activation.startedAt + SESSION_TTL_MS)
      else d == w.client
  {
    if w.client.activation.Pending? {
      GrantServes(z.cfg, w.client, event.token, event.ttlSeconds, w.server.now, event.stops);
    }
  }

  lemma OtherService(z: Setting, w: World, event: CR.Event)
    requires WorldInv(z, w) && !event.HeartbeatEnds? && !event.ActivationGranted?
    ensures
      var c, d := w.client, CR.Handle(z.cfg, w.client, CR.Timed(event, w.server.now));
      && (InService(d) ==> InService(c) && d.expiresAt == c.expiresAt)
      && (d.heartbeat.Some? ==> d.heartbeat == c.heartbeat || (event.Fires? && c.timer.Some?))
      && (d.activation.Pending? ==> d.activation == c.activation || (event.Activates? && c.activation.NotCalled?))
  {
    if event.UsageEnds? {
      UsageServes(w.client, event.rejected, event.isFatal, event.stops);
    }
  }

  lemma UsageServes(c: LC.Client, rejected: bool, isFatal: bool, stops: bool)
    ensures
      var d := LC.UsageAnswered(c, rejected, isFatal, stops);
      && (InService(d) ==> InService(c)) && d.expiresAt == c.expiresAt
      && d.heartbeat == c.heartbeat && d.activation == c.activation
  {
  }

  lemma ClientKeepsInv(z: Setting, w: World, event: CR.Event)
    requires Fits(z) && WorldInv(z, w) && Answerable(z, w, event)
    ensures WorldInv(z, Next(z, w, ClientMoves(event)))
  {
    ClientKeepsClientInv(z, w, event);
    if event.ActivationGranted? {
      GrantService(z, w, event);
    } else if event.HeartbeatEnds? {
      if w.client.heartbeat.Some? {
        RenewalService(z, w, event);
      }
    } else {
      OtherService(z, w, event);
    }
  }

  // ---------------------------------------------------------------- runs

  lemma StepKeepsWorld(z: Setting, w: World, m: Move)
    requires Fits(z) && WorldInv(z, w) && Possible(z, w, m)
    ensures WorldInv(z, Next(z, w, m))
  {
    match m {
      case ServerMoves(step) => ServerKeepsInv(z, w, step);
      case ClientMoves(event) => ClientKeepsInv(z, w, event);
    }
  }

  lemma {:induction false} RunKeepsWorld(z: Setting, worlds: seq<World>, moves: seq<Move>, i: nat)
    requires Fits(z) && Run(z, worlds, moves) && i < |worlds|
    ensures WorldInv(z, worlds[i])
  {
    if i == 0 {
      CR.FreshHasInv(z.cfg);
    } else {
      var k := i - 1;
      RunKeepsWorld(z, worlds, moves, k);
      assert Possible(z, worlds[k], moves[k]) && worlds[k + 1] == Next(z, worlds[k], moves[k]);
      StepKeepsWorld(z, worlds[k], moves[k]);
    }
  }

  /**
   A punctual client keeps its session. In every run of client and server in which its heartbeats
   succeed and nobody removes the session or raises or deletes its license, whenever the client
   is in service its session is live in Redis at the committed revision, and lasts there at least
   as long as the client believes, which is not over yet.
   */
  lemma PunctualClientKeepsSession(z: Setting, worlds: seq<World>, moves: seq<Move>, i: nat)
    requires Fits(z) && Run(z, worlds, moves) && i < |worlds| && InService(worlds[i].client)
    ensures worlds[i].client.token == Some(z.token) && worlds[i].client.expiresAt.Some?
    ensures Current(worlds[i].server, z.token)
    ensures worlds[i].server.now < worlds[i].client.expiresAt.value
         <= worlds[i].server.redis.keys[z.token].expiresAt
  {
    RunKeepsWorld(z, worlds, moves, i);
    ClockBeforeExpiry(z, worlds[i].client, worlds[i].server.now, worlds[i].server.now);
  }

  function Last(worlds: seq<World>): World
    requires worlds != []
  {
    worlds[|worlds| - 1]
  }

  lemma OneMoreMove(z: Setting, worlds: seq<World>, moves: seq<Move>, m: Move)
    returns (worlds': seq<World>, moves': seq<Move>)
    requires Run(z, worlds, moves) && Possible(z, Last(worlds), m)
    ensures Run(z, worlds', moves') && Last(worlds') == Next(z, Last(worlds), m)
  {
    worlds', moves' := worlds + [Next(z, Last(worlds), m)], moves + [m];
  }

  lemma ActivatedClient(cfg: Config, token: string, now: int)
    requires Checked(cfg)
    ensures
      var c := CR.Handle(cfg, LC.Fresh(cfg), CR.Timed(CR.Activates, now));
      && c.activation == LC.Pending(now) && c.timer.None? && c.heartbeat.None?
      && InService(CR.Handle(cfg, c, CR.Timed(CR.ActivationGranted(token, SESSION_TTL_SECONDS, false), now)))
  {
  }

  /** The client asks, and the server admits it and holds the row. */
  lemma AskedAndAdmitted(z: Setting, license: string, row: Admission.License, now: int,
                         caller: Admission.Registration, binding: string)
    returns (worlds: seq<World>, moves: seq<Move>)
    requires Fits(z) && LicenseId(license) && row.revision <= MAX_REVISION && IsActive(row.policy, now)
    ensures Run(z, worlds, moves)
    ensures
      var w, r := Last(worlds), Fencing.Admitted(license, row.revision, row.maxSessions, caller, binding);
      && w.client == CR.Handle(z.cfg, LC.Fresh(z.cfg), CR.Timed(CR.Activates, now)) && w.issuedBefore == {}
      && w.server == State(now, map[license := row], map[], map[license := 0], Store(map[], map[]), map[0 := r], map[], {}, {})
  {
    var s0 := State(now, map[license := row], map[], map[], Store(map[], map[]), map[], map[], {}, {});
    var s1 := s0.(requests := map[0 := Activating(license, row.revision, caller, binding)]);
    var start := StartActivation(0, license, caller, binding);
    assert Fencing.Next(s0, start) == Some(s1);
    FirstAdmission(s1, license, row, caller, binding);
    worlds, moves := [World(s0, LC.Fresh(z.cfg), {}, false)], [];
    worlds, moves := OneMoreMove(z, worlds, moves, ClientMoves(CR.Activates));
    worlds, moves := OneMoreMove(z, worlds, moves, ServerMoves(start));
    worlds, moves := OneMoreMove(z, worlds, moves, ServerMoves(Admit(0, true)));
  }

  /** Such runs bring a client into service: one activation of any active license does. */
  lemma ServiceIsReachable(z: Setting, license: string, row: Admission.License, now: int,
                           caller: Admission.Registration, binding: string)
    returns (worlds: seq<World>, moves: seq<Move>)
    requires Fits(z) && LicenseId(license) && row.revision <= MAX_REVISION && IsActive(row.policy, now)
    ensures Run(z, worlds, moves) && InService(Last(worlds).client)
  {
    worlds, moves := AskedAndAdmitted(z, license, row, now, caller, binding);
    var s := Last(worlds).server;
    var s' := FirstReservation(s, license, row, caller, binding, z.token);
    OnlyTicksMoveClock(s, Reserve(0, z.token), s');
    ActivatedClient(z.cfg, z.token, now);
    worlds, moves := OneMoreMove(z, worlds, moves, ServerMoves(Reserve(0, z.token)));
    worlds, moves := OneMoreMove(z, worlds, moves,
                                 ClientMoves(CR.ActivationGranted(z.token, SESSION_TTL_SECONDS, false)));
  }
}
