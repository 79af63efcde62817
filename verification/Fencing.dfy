/**
 Sessions live in Redis, licenses and registrations in PostgreSQL. Activation registers a
 session while it holds the license row, writes trial start and registration, commits, and answers;
 admin actions raise the license's session revision and clean Redis afterwards, if Redis
 answers; heartbeats and usage reports refresh Redis first and compare revisions second. Every
 statement and every script is one step here, and the steps of different requests interleave.
 */
module Fencing {
  import opened Wrappers
  import opened SessionCodec
  import opened SessionStore
  import opened SessionIndex
  import opened LicenseStatus
  import opened Admission

  const MAX_REVISION: nat := 2_147_483_647

  /** Under what a token was registered. */
  datatype Issue = Issue(license: string, revision: nat, binding: string)

  /** What the open transaction of an activation has written so far; nobody else sees it. */
  datatype Writes = NoWrites | TrialWritten(startedAt: Option<int>) | AllWritten(startedAt: Option<int>)

  /** Where a request stands between two of its steps. */
  datatype Request =
    | Activating(license: string, revision: nat, caller: Registration, binding: string)
    | Admitted(license: string, revision: nat, maxSessions: nat, caller: Registration, binding: string)
    | Reserved(license: string, token: string, caller: Registration, binding: string, writes: Writes)
    | Answering(token: string)
    | Refreshed(license: string, revision: nat, token: string, binding: string)
    | Bumped(license: string)
    | CleaningToken(token: string, binding: string)
    | CleaningLicense(license: string, minimum: Option<nat>)

  /**
   `slots` holds the committed registrations, `returned` the tokens clients have received, and
   `lost` those whose answer failed after the commit.
   */
  datatype State = State(
    now: int,
    rows: map<string, License>,
    slots: map<string, set<Registration>>,
    locks: map<string, nat>,
    redis: Store,
    requests: map<nat, Request>,
    issued: map<string, Issue>,
    returned: set<string>,
    lost: set<string>)

  /**
   `allowed` is the outcome of the allowlist reads; `works` says whether Redis answers. An
   activation fails before it has a session or after; a reservation that Redis makes without
   its answer arriving is one that fails after, and whose removal does not work. A bump stands
   for revoke, key rotation, session termination and registration removal, and keeps the
   registrations in `kept`; an edit for every other write to the row, among them restoring a
   revoked license. The billing revocation is in the link's table, so `Bill`, which
   among others stands for unlinking, does not wait for the row.
   */
  datatype Step =
    | Tick(to: int)
    | StartActivation(p: nat, license: string, caller: Registration, binding: string)
    | Admit(p: nat, allowed: bool)
    | FailAdmission(p: nat)
    | Reserve(p: nat, token: string)
    | WriteTrial(p: nat)
    | WriteRegistration(p: nat)
    | CommitActivation(p: nat)
    | FailActivation(p: nat)
    | Deliver(p: nat)
    | LoseAnswer(p: nat)
    | RefreshSession(p: nat, token: string, binding: string)
    | CheckSession(p: nat, allowed: bool)
    | Deactivate(token: string, binding: string)
    | Bump(p: nat, license: string, policy: Policy, kept: set<Registration>)
    | ReadBack(p: nat)
    | Edit(license: string, row: License)
    | Bill(license: string, billingRevokedAt: Option<int>)
    | Delete(p: nat, license: string)
    | Cleanup(p: nat, works: bool)

  function Slots(s: State, license: string): set<Registration>
  {
    if license in s.slots then s.slots[license] else {}
  }

  predicate Unstarted(p: Policy)
  {
    p.licenseType.Trial? && p.trialStartedAt.None?
  }

  function Begin(s: State, p: nat, r: Request): State
  {
    s.(requests := s.requests[p := r])
  }

  function End(s: State, p: nat): State
  {
    s.(requests := s.requests - {p})
  }

  predicate InFlight(s: State, p: nat)
  {
    p in s.requests
  }

  /** The license read that ends a heartbeat or usage check. */
  predicate Verdict(s: State, license: string, revision: nat, allowed: bool)
  {
    license in s.rows && s.rows[license].revision == revision
    && IsActive(s.rows[license].policy, s.now) && allowed
  }

  function NextActivation(s: State, step: Step): Option<State>
  {
    match step
    case StartActivation(p, license, caller, binding) =>
      if InFlight(s, p) || license !in s.rows then None
      else Some(Begin(s, p, Activating(license, s.rows[license].revision, caller, binding)))
    case Admit(p, allowed) =>
      if !InFlight(s, p) || !s.requests[p].Activating? || s.requests[p].license in s.locks then None
      else
        var r := s.requests[p];
        if !Verdict(s, r.license, r.revision, allowed)
           || SlotError(s.rows[r.license], Slots(s, r.license), r.caller).Some? then Some(End(s, p))
        else
          Some(Begin(s, p, Admitted(r.license, r.revision, s.rows[r.license].maxSessions, r.caller, r.binding))
               .(locks := s.locks[r.license := p]))
    case Reserve(p, token) =>
      if !InFlight(s, p) || !s.requests[p].Admitted? || token in s.issued then None
      else
        var r := s.requests[p];
        var (redis, registered) :=
          Register(s.redis, r.license, r.revision, r.binding, token, r.maxSessions, s.now);
        if !registered then Some(End(s, p).(redis := redis, locks := s.locks - {r.license}))
        else
          Some(Begin(s, p, Reserved(r.license, token, r.caller, r.binding, NoWrites))
               .(redis := redis, issued := s.issued[token := Issue(r.license, r.revision, r.binding)]))
    case _ => None
  }

  /** The rest of an activation: uncommitted writes, their commit or rollback, and the answer. */
  function NextWrite(s: State, step: Step): Option<State>
  {
    match step
    case WriteTrial(p) =>
      if !InFlight(s, p) || !s.requests[p].Reserved? || !s.requests[p].writes.NoWrites?
         || s.requests[p].license !in s.rows then None
      else
        var r := s.requests[p];
        Some(Begin(s, p, r.(writes :=
          TrialWritten(if Unstarted(s.rows[r.license].policy) then Some(s.now) else None))))
    case WriteRegistration(p) =>
      if !InFlight(s, p) || !s.requests[p].Reserved? || !s.requests[p].writes.TrialWritten? then None
      else Some(Begin(s, p, s.requests[p].(writes := AllWritten(s.requests[p].writes.startedAt))))
    case CommitActivation(p) =>
      if !InFlight(s, p) || !s.requests[p].Reserved? || !s.requests[p].writes.AllWritten?
         || s.requests[p].license !in s.rows then None
      else
        var r := s.requests[p];
        var row := s.rows[r.license];
        var policy := if r.writes.startedAt.Some? then row.policy.(trialStartedAt := r.writes.startedAt) else row.policy;
        Some(Begin(s, p, Answering(r.token)).(
             rows := s.rows[r.license := row.(policy := policy)],
             slots := s.slots[r.license := Slots(s, r.license) + {r.caller}],
             locks := s.locks - {r.license}))
    case FailActivation(p) =>
      if !InFlight(s, p) || !s.requests[p].Reserved? then None
      else
        var r := s.requests[p];
        Some(Begin(s, p, CleaningToken(r.token, r.binding)).(locks := s.locks - {r.license}))
    case FailAdmission(p) =>
      if !InFlight(s, p) || !s.requests[p].Admitted? then None
      else Some(End(s, p).(locks := s.locks - {s.requests[p].license}))
    case Deliver(p) =>
      if !InFlight(s, p) || !s.requests[p].Answering? then None
      else Some(End(s, p).(returned := s.returned + {s.requests[p].token}))
    case LoseAnswer(p) =>
      if !InFlight(s, p) || !s.requests[p].Answering? then None
      else Some(End(s, p).(lost := s.lost + {s.requests[p].token}))
    case _ => None
  }

  function NextSession(s: State, step: Step): Option<State>
  {
    match step
    case RefreshSession(p, token, binding) =>
      if InFlight(s, p) then None
      else
        var (redis, reply) := Refresh(s.redis, token, binding, s.now);
        var resolved := if reply.None? then None else ResolvedSession(reply.value);
        if resolved.None? then Some(s.(redis := redis))
        else
          Some(Begin(s, p, Refreshed(resolved.value.licenseId, resolved.value.sessionRevision, token, binding))
               .(redis := redis))
    case CheckSession(p, allowed) =>
      if !InFlight(s, p) || !s.requests[p].Refreshed? then None
      else
        var r := s.requests[p];
        if Verdict(s, r.license, r.revision, allowed) then Some(End(s, p))
        else Some(Begin(s, p, CleaningToken(r.token, r.binding)))
    case Deactivate(token, binding) =>
      Some(s.(redis := Remove(s.redis, token, binding, s.now).0))
    case _ => None
  }

  function NextAdmin(s: State, step: Step): Option<State>
  {
    match step
    case Bump(p, license, policy, kept) =>
      if InFlight(s, p) || license !in s.rows || license in s.locks || s.rows[license].revision >= MAX_REVISION then None
      else
        var row := s.rows[license];
        Some(Begin(s, p, Bumped(license))
             .(rows := s.rows[license := row.(revision := row.revision + 1, policy := policy)],
             slots := s.slots[license := Slots(s, license) * kept]))
    case ReadBack(p) =>
      if !InFlight(s, p) || !s.requests[p].Bumped? then None
      else
        var license := s.requests[p].license;
        if license !in s.rows then Some(End(s, p))
        else Some(Begin(s, p, CleaningLicense(license, Some(s.rows[license].revision))))
    case Edit(license, row) =>
      if license !in s.rows || license in s.locks then None
      else Some(s.(rows := s.rows[license := row.(revision := s.rows[license].revision)]))
    case Bill(license, billingRevokedAt) =>
      if license !in s.rows then None
      else
        var row := s.rows[license];
        Some(s.(rows := s.rows[license := row.(policy := row.policy.(billingRevokedAt := billingRevokedAt))]))
    case Delete(p, license) =>
      if InFlight(s, p) || license !in s.rows || license in s.locks then None
      else
        Some(Begin(s, p, CleaningLicense(license, None)).(rows := s.rows - {license}, slots := s.slots - {license}))
    case Cleanup(p, works) =>
      if !InFlight(s, p) || !(s.requests[p].CleaningToken? || s.requests[p].CleaningLicense?) then None
      else if !works then Some(End(s, p))
      else
        var r := s.requests[p];
        Some(End(s, p).(redis :=
          if r.CleaningToken? then Remove(s.redis, r.token, r.binding, s.now).0
          else RemoveAll(s.redis, r.license, r.minimum, s.now).0))
    case _ => None
  }

  /** One step of the whole system; None when the step is not possible in this state. */
  function Next(s: State, step: Step): Option<State>
  {
    match step
    case Tick(to) => if to < s.now then None else Some(s.(now := to))
    case StartActivation(_, _, _, _) => NextActivation(s, step)
    case Admit(_, _) => NextActivation(s, step)
    case Reserve(_, _) => NextActivation(s, step)
    case WriteTrial(_) => NextWrite(s, step)
    case WriteRegistration(_) => NextWrite(s, step)
    case CommitActivation(_) => NextWrite(s, step)
    case FailActivation(_) => NextWrite(s, step)
    case FailAdmission(_) => NextWrite(s, step)
    case Deliver(_) => NextWrite(s, step)
    case LoseAnswer(_) => NextWrite(s, step)
    case RefreshSession(_, _, _) => NextSession(s, step)
    case CheckSession(_, _) => NextSession(s, step)
    case Deactivate(_, _) => NextSession(s, step)
    case _ => NextAdmin(s, step)
  }

  // ---------------------------------------------------------------- the invariant

  ghost predicate LicenseId(license: string)
  {
    license != "" && '|' !in license
  }

  /** Every stored value is the encoding of what its token was issued under. */
  ghost predicate Stored(redis: Store, issued: map<string, Issue>)
  {
    && Known(redis, issued.Keys)
    && forall t | t in redis.keys ::
         redis.keys[t].value == Encode(issued[t].license, issued[t].revision, issued[t].binding)
  }

  /** No token was issued under a revision its license has not reached. */
  ghost predicate NotAhead(rows: map<string, License>, issue: Issue)
  {
    && LicenseId(issue.license) && issue.revision <= MAX_REVISION
    && (issue.license in rows ==> issue.revision <= rows[issue.license].revision)
  }

  ghost predicate HoldsRow(s: State, p: nat, license: string)
  {
    license in s.locks && s.locks[license] == p && license in s.rows
  }

  ghost predicate Sound(s: State, p: nat, r: Request)
  {
    match r
    case Activating(_, _, _, _) => true
    case Admitted(license, revision, _, _, _) => HoldsRow(s, p, license) && s.rows[license].revision == revision
    case Reserved(license, token, _, binding, _) =>
      && HoldsRow(s, p, license)
      && token in s.issued && s.issued[token].license == license && s.issued[token].binding == binding
    case Answering(token) => token in s.issued
    case Refreshed(license, revision, token, binding) =>
      token in s.issued && s.issued[token] == Issue(license, revision, binding)
    case Bumped(_) => true
    case CleaningToken(token, binding) => token in s.issued && s.issued[token].binding == binding
    case CleaningLicense(license, minimum) =>
      if minimum.None? then license !in s.rows
      else license in s.rows ==> minimum.value <= s.rows[license].revision
  }

  ghost predicate RedisInv(s: State)
  {
    Indexed(s.redis) && Bounded(s.redis, s.now) && Stored(s.redis, s.issued)
  }

  ghost predicate TokensInv(s: State)
  {
    && (forall t | t in s.issued :: NotAhead(s.rows, s.issued[t]))
    && (forall l | l in s.rows :: LicenseId(l) && s.rows[l].revision <= MAX_REVISION)
  }

  ghost predicate RequestsInv(s: State)
  {
    forall p | p in s.requests :: Sound(s, p, s.requests[p])
  }

  ghost predicate Inv(s: State)
  {
    RedisInv(s) && TokensInv(s) && RequestsInv(s)
  }

  ghost predicate Init(s: State)
  {
    && s.redis == Store(map[], map[]) && s.locks == map[] && s.requests == map[] && s.issued == map[]
    && s.returned == {} && s.lost == {}
    && (forall l | l in s.rows :: LicenseId(l) && s.rows[l].revision <= MAX_REVISION)
  }

  // ---------------------------------------------------------------- what the scripts do to stored values

  lemma ScriptKnows(redis: Store, issued: map<string, Issue>, c: Timed)
    requires Stored(redis, issued) && Indexed(redis)
    ensures Known(Apply(redis, c), issued.Keys + Drawn(c))
  {
    ApplyKnows(redis, c, issued.Keys);
  }

  lemma RegisterValues(redis: Store, i: Issue, token: string, maximum: int, now: int)
    ensures var (after, registered) := Register(redis, i.license, i.revision, i.binding, token, maximum, now);
            && (forall t | t in after.keys && (t != token || !registered) ::
                  t in redis.keys && after.keys[t] == redis.keys[t])
            && (registered ==> token in after.keys
                               && after.keys[token].value == Encode(i.license, i.revision, i.binding))
  {
  }

  lemma RegisterRefused(redis: Store, i: Issue, token: string, maximum: int, now: int, license: string)
    requires !Register(redis, i.license, i.revision, i.binding, token, maximum, now).1
    ensures var after := Register(redis, i.license, i.revision, i.binding, token, maximum, now).0;
            Members(after.indexes, license) <= Members(redis.indexes, license)
            && after.keys.Keys <= redis.keys.Keys
  {
    var live := At(redis, now);
    KeepShrinks(live.indexes, i.license,
                WithRevision(live, Members(live.indexes, i.license), Decimal(i.revision)), license);
  }

  lemma RegisterKnows(redis: Store, issued: map<string, Issue>, i: Issue, token: string, maximum: int, now: int)
    requires Stored(redis, issued) && Indexed(redis)
    ensures var (after, registered) := Register(redis, i.license, i.revision, i.binding, token, maximum, now);
            Known(after, if registered then issued.Keys + {token} else issued.Keys)
  {
    var (after, registered) := Register(redis, i.license, i.revision, i.binding, token, maximum, now);
    if registered {
      ScriptKnows(redis, issued, Timed(CallRegister(i.license, i.revision, i.binding, token, maximum), now));
    } else {
      forall l ensures Members(after.indexes, l) <= issued.Keys {
        RegisterRefused(redis, i, token, maximum, now, l);
        assert Members(redis.indexes, l) <= issued.Keys;
      }
      RegisterRefused(redis, i, token, maximum, now, "");
    }
  }

  lemma RegisterIndexes(redis: Store, issued: map<string, Issue>, i: Issue, token: string, maximum: int, now: int)
    requires Stored(redis, issued) && Indexed(redis) && Bounded(redis, now)
    requires token !in issued && LicenseId(i.license)
    ensures var after := Register(redis, i.license, i.revision, i.binding, token, maximum, now).0;
            Indexed(after) && Bounded(after, now)
  {
    var c := Timed(CallRegister(i.license, i.revision, i.binding, token, maximum), now);
    forall l ensures token !in Members(redis.indexes, l) {
      assert Members(redis.indexes, l) <= issued.Keys;
    }
    ApplyKeepsIndex(redis, c);
    ApplyBounded(redis, c);
  }

  lemma RegisterStores(redis: Store, issued: map<string, Issue>, i: Issue, token: string, maximum: int, now: int)
    requires Stored(redis, issued) && Indexed(redis) && Bounded(redis, now)
    requires token !in issued && LicenseId(i.license)
    ensures var (after, registered) := Register(redis, i.license, i.revision, i.binding, token, maximum, now);
            Indexed(after) && Bounded(after, now)
            && Stored(after, if registered then issued[token := i] else issued)
  {
    RegisterIndexes(redis, issued, i, token, maximum, now);
    RegisterKnows(redis, issued, i, token, maximum, now);
    RegisterValues(redis, i, token, maximum, now);
    var (after, registered) := Register(redis, i.license, i.revision, i.binding, token, maximum, now);
    if registered {
      StoredGrows(redis, after, issued, i, token);
    }
  }

  lemma StoredGrows(redis: Store, after: Store, issued: map<string, Issue>, i: Issue, token: string)
    requires Stored(redis, issued) && Known(after, issued.Keys + {token}) && token !in issued
    requires forall t | t in after.keys && t != token :: t in redis.keys && after.keys[t] == redis.keys[t]
    requires token in after.keys ==> after.keys[token].value == Encode(i.license, i.revision, i.binding)
    ensures Stored(after, issued[token := i])
  {
    assert issued[token := i].Keys == issued.Keys + {token};
  }

  lemma RefreshStores(redis: Store, issued: map<string, Issue>, token: string, binding: string, now: int)
    requires Stored(redis, issued) && Indexed(redis) && Bounded(redis, now)
    ensures var (after, _) := Refresh(redis, token, binding, now);
            Indexed(after) && Bounded(after, now) && Stored(after, issued)
  {
    var c := Timed(CallRefresh(token, binding), now);
    ApplyKeepsIndex(redis, c);
    ApplyBounded(redis, c);
    ScriptKnows(redis, issued, c);
    assert issued.Keys + Drawn(c) == issued.Keys;
  }

  lemma RemoveStores(redis: Store, issued: map<string, Issue>, c: Timed)
    requires Stored(redis, issued) && Indexed(redis) && Bounded(redis, c.now)
    requires c.call.CallRemove? || c.call.CallRemoveAll?
    ensures var after := Apply(redis, c);
            Indexed(after) && Bounded(after, c.now) && Stored(after, issued)
  {
    ApplyKeepsIndex(redis, c);
    ApplyBounded(redis, c);
    ScriptKnows(redis, issued, c);
    assert issued.Keys + Drawn(c) == issued.Keys;
    RemovalMembers(redis, c, "");
    RemovalKeepsValues(redis, c);
  }

  lemma RemovalKeepsValues(redis: Store, c: Timed)
    requires c.call.CallRemove? || c.call.CallRemoveAll?
    ensures var after := Apply(redis, c);
            forall t | t in after.keys :: t in redis.keys && after.keys[t] == redis.keys[t]
  {
  }

  /** A refresh that succeeds resolves to exactly what the token was issued under. */
  lemma RefreshResolves(redis: Store, issued: map<string, Issue>, token: string, binding: string, now: int)
    requires Stored(redis, issued)
    requires forall t | t in issued :: LicenseId(issued[t].license) && issued[t].revision <= MAX_REVISION
    ensures var (_, reply) := Refresh(redis, token, binding, now);
            reply.Some? ==>
              token in issued && issued[token].binding == binding
              && ResolvedSession(reply.value) == Some(Resolved(issued[token].license, issued[token].revision))
  {
    var live := At(redis, now);
    if token in live.keys {
      var i := issued[token];
      LicenseOfEncoded(i.license, i.revision, i.binding);
      ReplyReadsBack(i.license, i.revision);
    }
  }

  // ---------------------------------------------------------------- the invariant holds

  ghost predicate SameRevision(s: State, s': State, license: string)
  {
    license in s.rows ==> license in s'.rows && s'.rows[license].revision == s.rows[license].revision
  }

  /** Row locks pin revisions; tokens and revisions only grow; deleted licenses stay deleted. */
  ghost predicate Respects(s: State, s': State, p: nat)
  {
    && (forall q | q != p :: q in s'.requests ==> q in s.requests && s'.requests[q] == s.requests[q])
    && (forall l | l in s.locks && s.locks[l] != p :: l in s'.locks && s'.locks[l] == s.locks[l] && SameRevision(s, s', l))
    && (forall l | l in s'.rows :: l in s.rows && s.rows[l].revision <= s'.rows[l].revision)
    && (forall t | t in s.issued :: t in s'.issued && s'.issued[t] == s.issued[t])
  }

  lemma OthersStaySound(s: State, s': State, p: nat)
    requires RequestsInv(s) && Respects(s, s', p)
    requires p in s'.requests ==> Sound(s', p, s'.requests[p])
    ensures RequestsInv(s')
  {
    forall q | q in s'.requests ensures Sound(s', q, s'.requests[q]) {
      if q != p {
        assert Sound(s, q, s.requests[q]);
      }
    }
  }

  lemma RedisStays(s: State, s': State)
    requires RedisInv(s) && s'.redis == s.redis && s'.issued == s.issued && s.now <= s'.now
    ensures RedisInv(s')
  {
  }

  lemma ReserveKeepsRedis(s: State, p: nat, token: string)
    requires Inv(s) && NextActivation(s, Reserve(p, token)).Some?
    ensures RedisInv(NextActivation(s, Reserve(p, token)).value)
  {
    var r := s.requests[p];
    assert Sound(s, p, r) && NotAhead(s.rows, Issue(r.license, r.revision, r.binding));
    RegisterStores(s.redis, s.issued, Issue(r.license, r.revision, r.binding), token, r.maxSessions, s.now);
  }

  lemma ReserveKeepsTokens(s: State, p: nat, token: string)
    requires Inv(s) && NextActivation(s, Reserve(p, token)).Some?
    ensures TokensInv(NextActivation(s, Reserve(p, token)).value)
  {
    var r := s.requests[p];
    assert Sound(s, p, r) && NotAhead(s.rows, Issue(r.license, r.revision, r.binding));
  }

  /** Either the maximum is reached and the transaction is over, or the token is issued under what was admitted. */
  lemma ReserveEnds(s: State, p: nat, token: string)
    requires NextActivation(s, Reserve(p, token)).Some?
    ensures p in s.requests && s.requests[p].Admitted? && token !in s.issued
    ensures
      var s', r := NextActivation(s, Reserve(p, token)).value, s.requests[p];
      || s' == s.(redis := s'.redis, requests := s.requests - {p}, locks := s.locks - {r.license})
      || s' == s.(redis := s'.redis, requests := s.requests[p := Reserved(r.license, token, r.caller, r.binding, NoWrites)],
             issued := s.issued[token := Issue(r.license, r.revision, r.binding)])
  {
  }

  lemma ReserveKeepsRequests(s: State, p: nat, token: string)
    requires Inv(s) && NextActivation(s, Reserve(p, token)).Some?
    ensures RequestsInv(NextActivation(s, Reserve(p, token)).value)
  {
    ReserveEnds(s, p, token);
    assert Sound(s, p, s.requests[p]);
    OthersStaySound(s, NextActivation(s, Reserve(p, token)).value, p);
  }

  lemma AdmitKeepsInv(s: State, p: nat, allowed: bool)
    requires Inv(s) && NextActivation(s, Admit(p, allowed)).Some?
    ensures Inv(NextActivation(s, Admit(p, allowed)).value)
  {
    RedisStays(s, NextActivation(s, Admit(p, allowed)).value);
    OthersStaySound(s, NextActivation(s, Admit(p, allowed)).value, p);
  }

  lemma ActivationKeepsInv(s: State, step: Step)
    requires Inv(s) && NextActivation(s, step).Some?
    ensures Inv(NextActivation(s, step).value)
  {
    if step.Reserve? {
      ReserveKeepsRedis(s, step.p, step.token);
      ReserveKeepsTokens(s, step.p, step.token);
      ReserveKeepsRequests(s, step.p, step.token);
    } else if step.Admit? {
      AdmitKeepsInv(s, step.p, step.allowed);
    } else {
      RedisStays(s, NextActivation(s, step).value);
      OthersStaySound(s, NextActivation(s, step).value, step.p);
    }
  }

  lemma EndingKeepsInv(s: State, step: Step)
    requires Inv(s) && NextWrite(s, step).Some? && (step.FailAdmission? || step.Deliver? || step.LoseAnswer?)
    ensures Inv(NextWrite(s, step).value)
  {
    RedisStays(s, NextWrite(s, step).value);
    assert Sound(s, step.p, s.requests[step.p]);
    OthersStaySound(s, NextWrite(s, step).value, step.p);
  }

  lemma CommitKeepsInv(s: State, p: nat)
    requires Inv(s) && NextWrite(s, CommitActivation(p)).Some?
    ensures Inv(NextWrite(s, CommitActivation(p)).value)
  {
    RedisStays(s, NextWrite(s, CommitActivation(p)).value);
    assert Sound(s, p, s.requests[p]);
    OthersStaySound(s, NextWrite(s, CommitActivation(p)).value, p);
  }

  lemma WriteKeepsInv(s: State, step: Step)
    requires Inv(s) && NextWrite(s, step).Some?
    ensures Inv(NextWrite(s, step).value)
  {
    if step.FailAdmission? || step.Deliver? || step.LoseAnswer? {
      EndingKeepsInv(s, step);
    } else if step.CommitActivation? {
      CommitKeepsInv(s, step.p);
    } else {
      RedisStays(s, NextWrite(s, step).value);
      assert Sound(s, step.p, s.requests[step.p]);
      OthersStaySound(s, NextWrite(s, step).value, step.p);
    }
  }

  lemma RefreshKeepsRedis(s: State, p: nat, token: string, binding: string)
    requires Inv(s) && NextSession(s, RefreshSession(p, token, binding)).Some?
    ensures RedisInv(NextSession(s, RefreshSession(p, token, binding)).value)
  {
    RefreshStores(s.redis, s.issued, token, binding, s.now);
  }

  /** A refresh touches no table, and a request it opens carries what the token was issued under. */
  lemma RefreshOpens(s: State, p: nat, token: string, binding: string)
    requires Inv(s) && NextSession(s, RefreshSession(p, token, binding)).Some?
    ensures
      var s' := NextSession(s, RefreshSession(p, token, binding)).value;
      && s' == s.(redis := s'.redis, requests := s'.requests) && p !in s.requests
      && (s'.requests == s.requests
          || (token in s.issued && token in At(s.redis, s.now).keys && s.issued[token].binding == binding
              && s'.requests == s.requests[p := Refreshed(s.issued[token].license, s.issued[token].revision, token, binding)]))
  {
    RefreshResolves(s.redis, s.issued, token, binding, s.now);
  }

  lemma RefreshAnswers(redis: Store, i: Issue, token: string, now: int)
    requires LicenseId(i.license) && token in At(redis, now).keys
    requires redis.keys[token].value == Encode(i.license, i.revision, i.binding)
    ensures Refresh(redis, token, i.binding, now).1 == Some(Reply(i.license, Decimal(i.revision)))
  {
    LicenseOfEncoded(i.license, i.revision, i.binding);
  }

  /** The refresh of an issued, live session under its own binding always opens a check. */
  lemma RefreshResolvesLive(s: State, p: nat, token: string, binding: string)
    requires Inv(s) && NextSession(s, RefreshSession(p, token, binding)).Some?
    requires token in At(s.redis, s.now).keys && token in s.issued && s.issued[token].binding == binding
    ensures
      var s', i := NextSession(s, RefreshSession(p, token, binding)).value, s.issued[token];
      p in s'.requests && s'.requests[p] == Refreshed(i.license, i.revision, token, binding)
  {
    var i := s.issued[token];
    assert NotAhead(s.rows, i);
    RefreshAnswers(s.redis, i, token, s.now);
    ReplyReadsBack(i.license, i.revision);
  }

  lemma RefreshKeepsRest(s: State, p: nat, token: string, binding: string)
    requires Inv(s) && NextSession(s, RefreshSession(p, token, binding)).Some?
    ensures TokensInv(NextSession(s, RefreshSession(p, token, binding)).value)
    ensures RequestsInv(NextSession(s, RefreshSession(p, token, binding)).value)
  {
    RefreshOpens(s, p, token, binding);
    var s' := NextSession(s, RefreshSession(p, token, binding)).value;
    forall q | q in s'.requests ensures Sound(s', q, s'.requests[q]) {
      assert q in s.requests ==> Sound(s, q, s.requests[q]);
    }
  }

  lemma DeactivateKeepsInv(s: State, token: string, binding: string)
    requires Inv(s)
    ensures Inv(NextSession(s, Deactivate(token, binding)).value)
  {
    RemoveStores(s.redis, s.issued, Timed(CallRemove(token, binding), s.now));
    OthersStaySound(s, NextSession(s, Deactivate(token, binding)).value, 0);
  }

  lemma SessionKeepsInv(s: State, step: Step)
    requires Inv(s) && NextSession(s, step).Some?
    ensures Inv(NextSession(s, step).value)
  {
    match step {
      case RefreshSession(p, token, binding) =>
        RefreshKeepsRedis(s, p, token, binding);
        RefreshKeepsRest(s, p, token, binding);
      case CheckSession(p, allowed) =>
        RedisStays(s, NextSession(s, step).value);
        OthersStaySound(s, NextSession(s, step).value, p);
      case Deactivate(token, binding) =>
        DeactivateKeepsInv(s, token, binding);
      case _ =>
    }
  }

  lemma TokenCleanupKeepsRedis(s: State, p: nat)
    requires Inv(s) && p in s.requests && s.requests[p].CleaningToken?
    ensures RedisInv(NextAdmin(s, Cleanup(p, true)).value)
  {
    RemoveStores(s.redis, s.issued, Timed(CallRemove(s.requests[p].token, s.requests[p].binding), s.now));
  }

  lemma LicenseCleanupKeepsRedis(s: State, p: nat)
    requires Inv(s) && p in s.requests && s.requests[p].CleaningLicense?
    ensures RedisInv(NextAdmin(s, Cleanup(p, true)).value)
  {
    RemoveStores(s.redis, s.issued, Timed(CallRemoveAll(s.requests[p].license, s.requests[p].minimum), s.now));
  }

  lemma CleanupKeepsRedis(s: State, p: nat, works: bool)
    requires Inv(s) && NextAdmin(s, Cleanup(p, works)).Some?
    ensures RedisInv(NextAdmin(s, Cleanup(p, works)).value)
  {
    if !works {
      RedisStays(s, NextAdmin(s, Cleanup(p, works)).value);
    } else if s.requests[p].CleaningToken? {
      TokenCleanupKeepsRedis(s, p);
    } else {
      LicenseCleanupKeepsRedis(s, p);
    }
  }

  lemma RowWriteKeepsRequests(s: State, step: Step)
    requires Inv(s) && NextAdmin(s, step).Some? && (step.Edit? || step.Bill?)
    ensures RequestsInv(NextAdmin(s, step).value)
  {
    OthersStaySound(s, NextAdmin(s, step).value, 0);
  }

  lemma BumpKeepsRequests(s: State, step: Step)
    requires Inv(s) && NextAdmin(s, step).Some? && step.Bump?
    ensures RequestsInv(NextAdmin(s, step).value)
  {
    OthersStaySound(s, NextAdmin(s, step).value, step.p);
  }

  lemma DeleteKeepsRequests(s: State, step: Step)
    requires Inv(s) && NextAdmin(s, step).Some? && step.Delete?
    ensures RequestsInv(NextAdmin(s, step).value)
  {
    OthersStaySound(s, NextAdmin(s, step).value, step.p);
  }

  lemma ReadBackKeepsRequests(s: State, step: Step)
    requires Inv(s) && NextAdmin(s, step).Some? && step.ReadBack?
    ensures RequestsInv(NextAdmin(s, step).value)
  {
    OthersStaySound(s, NextAdmin(s, step).value, step.p);
  }

  /** A cleanup touches nothing but Redis and its own request. */
  lemma CleanupEnds(s: State, p: nat, works: bool)
    requires NextAdmin(s, Cleanup(p, works)).Some?
    ensures
      var s' := NextAdmin(s, Cleanup(p, works)).value;
      s' == s.(redis := s'.redis, requests := s.requests - {p})
  {
  }

  lemma CleanupKeepsRequests(s: State, p: nat, works: bool)
    requires Inv(s) && NextAdmin(s, Cleanup(p, works)).Some?
    ensures RequestsInv(NextAdmin(s, Cleanup(p, works)).value)
  {
    CleanupEnds(s, p, works);
    OthersStaySound(s, NextAdmin(s, Cleanup(p, works)).value, p);
  }

  lemma AdminKeepsRequests(s: State, step: Step)
    requires Inv(s) && NextAdmin(s, step).Some?
    ensures RequestsInv(NextAdmin(s, step).value)
  {
    match step {
      case Edit(_, _) => RowWriteKeepsRequests(s, step);
      case Bill(_, _) => RowWriteKeepsRequests(s, step);
      case Bump(_, _, _, _) => BumpKeepsRequests(s, step);
      case Delete(_, _) => DeleteKeepsRequests(s, step);
      case ReadBack(_) => ReadBackKeepsRequests(s, step);
      case Cleanup(p, works) => CleanupKeepsRequests(s, p, works);
      case _ =>
    }
  }

  lemma AdminKeepsTokens(s: State, step: Step)
    requires TokensInv(s) && NextAdmin(s, step).Some?
    ensures TokensInv(NextAdmin(s, step).value)
  {
  }

  lemma AdminKeepsInv(s: State, step: Step)
    requires Inv(s) && NextAdmin(s, step).Some?
    ensures Inv(NextAdmin(s, step).value)
  {
    AdminKeepsRequests(s, step);
    AdminKeepsTokens(s, step);
    if step.Cleanup? {
      CleanupKeepsRedis(s, step.p, step.works);
    } else {
      RedisStays(s, NextAdmin(s, step).value);
    }
  }

  lemma NextKeepsInv(s: State, step: Step)
    requires Inv(s) && Next(s, step).Some?
    ensures Inv(Next(s, step).value)
  {
    if NextActivation(s, step).Some? {
      ActivationKeepsInv(s, step);
    } else if NextWrite(s, step).Some? {
      WriteKeepsInv(s, step);
    } else if NextSession(s, step).Some? {
      SessionKeepsInv(s, step);
    } else if NextAdmin(s, step).Some? {
      AdminKeepsInv(s, step);
    } else {
      var s' := Next(s, step).value;
      RedisStays(s, s');
      assert forall p | p in s'.requests :: Sound(s, p, s.requests[p]);
    }
  }

  /** The same with the next state named, for runs. */
  lemma StepKeepsInv(s: State, step: Step, s': State)
    requires Inv(s) && Next(s, step) == Some(s')
    ensures Inv(s')
  {
    NextKeepsInv(s, step);
  }
}
