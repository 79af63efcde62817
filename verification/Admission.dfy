/**
 The transaction that admits an activation: under the license's registration lock it checks
 policy and slots, reserves a session in Redis, starts a trial, registers the device, and
 either commits all of it or leaves the database as it was.
 */
module Admission {
  import opened Wrappers
  import opened SessionCodec
  import opened SessionStore
  import opened SessionIndex
  import opened LicenseStatus
  import ML = MeterLedger

  datatype Registration = Registration(ip: string, deviceId: string)

  datatype License = License(
    revision: nat,
    policy: Policy,
    maxIps: nat,
    maxDevices: nat,
    maxSessions: nat,
    allowedIps: set<string>,
    allowedDevices: set<string>)

  datatype Error =
    | LicenseInvalid
    | LicenseRevoked
    | LicenseExpired
    | IpNotAllowed
    | DeviceNotAllowed
    | IpRegistrationLimit
    | DeviceRegistrationLimit
    | ConcurrentSessionLimit
    | SessionInvalidOrExpired
    | NotMetered
    | Usage(outcome: ML.Outcome)
    | Internal

  /** The distinct addresses and devices that occupy a slot. */
  function Ips(registered: set<Registration>): set<string>
  {
    set r | r in registered :: r.ip
  }

  function Devices(registered: set<Registration>): set<string>
  {
    set r | r in registered :: r.deviceId
  }

  function PolicyError(l: License, caller: Registration, now: int): Option<Error>
  {
    match DeriveLicenseStatus(l.policy, now)
    case ManuallyRevoked => Some(LicenseRevoked)
    case BillingRevoked => Some(LicenseRevoked)
    case SubscriptionExpired => Some(LicenseExpired)
    case TrialExpired => Some(LicenseExpired)
    case Active =>
      if l.allowedIps != {} && caller.ip !in l.allowedIps then Some(IpNotAllowed)
      else if l.allowedDevices != {} && caller.deviceId !in l.allowedDevices then Some(DeviceNotAllowed)
      else None
  }

  function SlotError(l: License, registered: set<Registration>, caller: Registration): Option<Error>
  {
    if caller in registered then None
    else if l.maxIps > 0 && caller.ip !in Ips(registered) && |Ips(registered)| >= l.maxIps then
      Some(IpRegistrationLimit)
    else if l.maxDevices > 0 && caller.deviceId !in Devices(registered) && |Devices(registered)| >= l.maxDevices then
      Some(DeviceRegistrationLimit)
    else None
  }

  /** The policy after admission: a trial that has not started starts now. */
  function Started(p: Policy, now: int): Policy
  {
    if p.licenseType.Trial? && p.trialStartedAt.None? then p.(trialStartedAt := Some(now)) else p
  }

  /** Why a heartbeat or usage report is refused, from what the refresh script answered. */
  function SessionError(reply: Option<string>, licenseId: string, license: Option<License>,
                        caller: Registration, now: int): Option<Error>
  {
    if reply.None? then Some(SessionInvalidOrExpired)
    else
      match ResolvedSession(reply.value)
      case None => Some(Internal)
      case Some(r) =>
        if license.None? || r.licenseId != licenseId || r.sessionRevision != license.value.revision then
          Some(SessionInvalidOrExpired)
        else PolicyError(license.value, caller, now)
  }

  /** The answer to a usage report: invalid input, then the session, the license type, and the meter. */
  function UsageResult(redis: Store, ledger: ML.Ledger, licenseId: string, license: Option<License>, token: string,
                       binding: string, caller: Registration, name: string, units: int, eventId: string, now: int)
    : Result<int, Error>
  {
    if !(1 <= units <= ML.MAX_LICENSE_LIMIT) then Err(Usage(ML.Invalid))
    else
      match SessionError(Refresh(redis, token, binding, now).1, licenseId, license, caller, now)
      case Some(e) => Err(e)
      case None =>
        if license.None? || !license.value.policy.licenseType.Metered? then Err(NotMetered)
        else
          var outcome := ML.ConsumeUnits(ledger, name, units, eventId).1;
          if outcome.Consumed? || outcome.Replayed? then Ok(outcome.remaining) else Err(Usage(outcome))
  }

  // ---------------------------------------------------------------- the policy decision, by columns

  /** An empty allowlist lets everybody in. */
  ghost predicate Lists(allowed: set<string>, x: string)
  {
    allowed == {} || x in allowed
  }

  /** The policy lets a caller in exactly if nothing is revoked or over and both allowlists name it; causes in this order. */
  lemma PolicyIsExact(l: License, caller: Registration, now: int)
    ensures PolicyError(l, caller, now) ==
            if Revoked(l.policy) then Some(LicenseRevoked)
            else if Ended(l.policy, now) then Some(LicenseExpired)
            else if !Lists(l.allowedIps, caller.ip) then Some(IpNotAllowed)
            else if !Lists(l.allowedDevices, caller.deviceId) then Some(DeviceNotAllowed)
            else None
  {
    StatusIsExact(l.policy, now);
  }

  // ---------------------------------------------------------------- slots

  /** Admitting this caller would take the addresses past both the limit and what is there already. */
  ghost predicate OverrunsIps(l: License, registered: set<Registration>, caller: Registration)
  {
    l.maxIps > 0 && |Ips(registered + {caller})| > Max(|Ips(registered)|, l.maxIps)
  }

  ghost predicate OverrunsDevices(l: License, registered: set<Registration>, caller: Registration)
  {
    l.maxDevices > 0 && |Devices(registered + {caller})| > Max(|Devices(registered)|, l.maxDevices)
  }

  lemma OneMoreIp(registered: set<Registration>, caller: Registration)
    ensures |Ips(registered + {caller})| == |Ips(registered)| + (if caller.ip in Ips(registered) then 0 else 1)
  {
    assert Ips(registered + {caller}) == Ips(registered) + {caller.ip} by {
      assert caller in registered + {caller};
      forall x | x in Ips(registered) ensures x in Ips(registered + {caller}) {
        var r :| r in registered && r.ip == x;
        assert r in registered + {caller};
      }
    }
    if caller.ip in Ips(registered) {
      assert Ips(registered) + {caller.ip} == Ips(registered);
    }
  }

  lemma OneMoreDevice(registered: set<Registration>, caller: Registration)
    ensures |Devices(registered + {caller})|
         == |Devices(registered)| + (if caller.deviceId in Devices(registered) then 0 else 1)
  {
    assert Devices(registered + {caller}) == Devices(registered) + {caller.deviceId} by {
      assert caller in registered + {caller};
      forall x | x in Devices(registered) ensures x in Devices(registered + {caller}) {
        var r :| r in registered && r.deviceId == x;
        assert r in registered + {caller};
      }
    }
    if caller.deviceId in Devices(registered) {
      assert Devices(registered) + {caller.deviceId} == Devices(registered);
    }
  }

  /** The slot checks refuse exactly the registrations that would overrun a limit, addresses first. */
  lemma SlotErrorIsExact(l: License, registered: set<Registration>, caller: Registration)
    ensures SlotError(l, registered, caller) ==
            if OverrunsIps(l, registered, caller) then Some(IpRegistrationLimit)
            else if OverrunsDevices(l, registered, caller) then Some(DeviceRegistrationLimit)
            else None
  {
    OneMoreIp(registered, caller);
    OneMoreDevice(registered, caller);
    if caller in registered {
      assert caller.ip in Ips(registered) && caller.deviceId in Devices(registered);
    }
  }

  // ---------------------------------------------------------------- the transaction

  /** Where a transaction fails after its session was reserved, if it does. */
  datatype Failure = Never | BeforeTrial | AfterTrial | AfterRegistration

  class ActivationService {
    const licenseId: string
    var license: Option<License>
    var registered: set<Registration>
    const redis: RedisSessions

    constructor (licenseId: string, license: Option<License>, redis: RedisSessions)
      ensures this.licenseId == licenseId && this.redis == redis
      ensures this.license == license && registered == {}
    {
      this.licenseId, this.redis := licenseId, redis;
      this.license, this.registered := license, {};
    }

    /** The transaction after a successful reservation: trial start, registration, commit; a failure rolls both back. */
    method WriteAdmission(current: License, caller: Registration, now: int, fails: Failure) returns (committed: bool)
      requires license == Some(current)
      modifies this
      ensures committed == fails.Never?
      ensures license == if committed then Some(current.(policy := Started(current.policy, now))) else old(license)
      ensures registered == if committed then old(registered) + {caller} else old(registered)
    {
      var licenseBefore, registeredBefore := license, registered;
      committed := !fails.BeforeTrial?;
      if committed && current.policy.licenseType.Trial? && current.policy.trialStartedAt.None? {
        license := Some(current.(policy := current.policy.(trialStartedAt := Some(now))));
      }
      if fails.AfterTrial? {
        committed := false;
      }
      if committed && caller !in registered {
        registered := registered + {caller};
      }
      if fails.AfterRegistration? {
        committed := false;
      }
      if !committed {
        license, registered := licenseBefore, registeredBefore;
      } else {
        assert registered == registeredBefore + {caller};
      }
    }

    /**
     `snapshot` is the revision the activation read before the lock, `fails` where the transaction
     fails after the reservation, and `redisWorks` whether Redis then answers the removal.
     */
    method AdmitActivation(snapshot: nat, caller: Registration, binding: string, token: string,
                           now: int, fails: Failure, redisWorks: bool)
      returns (result: Result<string, Error>)
      modifies this, redis
      // The first column that forbids it decides; sessions are counted from the live keys.
      ensures Indexed(old(redis.Contents())) ==>
                var l := old(license);
                result ==
                if l.None? || l.value.revision != snapshot then Err(LicenseInvalid)
                else if Revoked(l.value.policy) then Err(LicenseRevoked)
                else if Ended(l.value.policy, now) then Err(LicenseExpired)
                else if !Lists(l.value.allowedIps, caller.ip) then Err(IpNotAllowed)
                else if !Lists(l.value.allowedDevices, caller.deviceId) then Err(DeviceNotAllowed)
                else if OverrunsIps(l.value, old(registered), caller) then Err(IpRegistrationLimit)
                else if OverrunsDevices(l.value, old(registered), caller) then Err(DeviceRegistrationLimit)
                else if 0 < l.value.maxSessions <= |CurrentSessions(old(redis.Contents()), licenseId, snapshot, now)| then
                  Err(ConcurrentSessionLimit)
                else if !fails.Never? then Err(Internal)
                else Ok(token)
      // Any failure leaves registrations, trial start and every other column as they were.
      ensures result.Err? ==> license == old(license) && registered == old(registered)
      // Success registers the caller and starts an unstarted trial.
      ensures result.Ok? ==> old(license).Some?
      ensures result.Ok? ==>
                var starts := old(license).value.policy.licenseType == Trial
                              && old(license).value.policy.trialStartedAt == None;
                registered == old(registered) + {caller}
                && license == if starts then Some(old(license).value.(policy :=
                                                    old(license).value.policy.(trialStartedAt := Some(now))))
                              else old(license)
      // Redis: untouched by a refusal before it; the registration, undone after a later failure if Redis answers.
      ensures
        var reserved := if old(license).None? then (old(redis.Contents()), false)
                        else Register(old(redis.Contents()), licenseId, snapshot, binding, token,
                                      old(license).value.maxSessions, now);
        redis.Contents() ==
        if result.Ok? || result.error.ConcurrentSessionLimit? || (result.error.Internal? && !redisWorks) then reserved.0
        else if result.error.Internal? then Remove(reserved.0, token, binding, now).0
        else old(redis.Contents())
      // Slots: no more distinct addresses or devices than before, or than a positive limit.
      ensures result.Ok? && old(license).value.maxIps > 0 ==>
                |Ips(registered)| <= Max(|Ips(old(registered))|, old(license).value.maxIps)
      ensures result.Ok? && old(license).value.maxDevices > 0 ==>
                |Devices(registered)| <= Max(|Devices(old(registered))|, old(license).value.maxDevices)
    {
      if license.None? || license.value.revision != snapshot {
        return Err(LicenseInvalid);
      }
      var current := license.value;
      PolicyIsExact(current, caller, now);
      var policyError := PolicyError(current, caller, now);
      if policyError.Some? {
        return Err(policyError.value);
      }
      SlotErrorIsExact(current, registered, caller);
      if caller !in registered {
        if current.maxIps > 0 && caller.ip !in Ips(registered) && |Ips(registered)| >= current.maxIps {
          return Err(IpRegistrationLimit);
        }
        if current.maxDevices > 0 && caller.deviceId !in Devices(registered)
           && |Devices(registered)| >= current.maxDevices {
          return Err(DeviceRegistrationLimit);
        }
      }
      if Indexed(redis.Contents()) {
        RegisterRefusesIff(redis.Contents(), licenseId, current.revision, binding, token, current.maxSessions, now);
      }
      var ok := redis.RegisterSession(licenseId, current.revision, binding, token, current.maxSessions, now);
      if !ok {
        return Err(ConcurrentSessionLimit);
      }
      var committed := WriteAdmission(current, caller, now, fails);
      if !committed {
        if redisWorks {
          var _ := redis.RemoveSession(token, binding, now);
        }
        return Err(Internal);
      }
      return Ok(token);
    }

    /** Heartbeat: the session is extended first and checked afterwards; a refused one is removed. */
    method Heartbeat(token: string, binding: string, caller: Registration, now: int, redisWorks: bool)
      returns (result: Result<License, Error>)
      modifies redis
      ensures var (refreshed, reply) := Refresh(old(redis.Contents()), token, binding, now);
              var error := SessionError(reply, licenseId, license, caller, now);
              && (error.Some? ==> result == Err(error.value))
              && (error.None? ==> license.Some? && result == Ok(license.value))
              && redis.Contents()
                 == if error.Some? && reply.Some? && error != Some(Internal) && redisWorks then
                      Remove(refreshed, token, binding, now).0
                    else refreshed
      // What is stored under the token, and the columns, decide.
      ensures token !in old(redis.keys) || old(redis.keys)[token].expiresAt <= now ==>
                result == Err(SessionInvalidOrExpired)
      ensures forall revision: nat, own: string ::
                token in old(redis.keys) && now < old(redis.keys)[token].expiresAt
                && old(redis.keys)[token].value == Encode(licenseId, revision, own)
                && licenseId != "" && '|' !in licenseId && revision <= MAX_SAFE_INTEGER ==>
                  result ==
                  if own != binding || license.None? || license.value.revision != revision then
                    Err(SessionInvalidOrExpired)
                  else if Revoked(license.value.policy) then Err(LicenseRevoked)
                  else if Ended(license.value.policy, now) then Err(LicenseExpired)
                  else if !Lists(license.value.allowedIps, caller.ip) then Err(IpNotAllowed)
                  else if !Lists(license.value.allowedDevices, caller.deviceId) then Err(DeviceNotAllowed)
                  else Ok(license.value)
    {
      SessionIsAcceptedIff(redis.Contents(), token, binding, licenseId, license, caller, now);
      var reply := redis.RefreshSession(token, binding, now);
      if reply.None? {
        return Err(SessionInvalidOrExpired);
      }
      var resolved := ResolvedSession(reply.value);
      if resolved.None? {
        return Err(Internal);
      }
      var error := Some(SessionInvalidOrExpired);
      if license.Some? && resolved.value.licenseId == licenseId
         && resolved.value.sessionRevision == license.value.revision {
        error := PolicyError(license.value, caller, now);
        if error.None? {
          return Ok(license.value);
        }
      }
      if redisWorks {
        var _ := redis.RemoveSession(token, binding, now);
      }
      return Err(error.value);
    }

    /** A usage report: a session check, and then one atomic consumption from a metered license. */
    method Consume(meters: ML.MeterRepository, token: string, binding: string, caller: Registration,
                   name: string, units: int, eventId: string, now: int, redisWorks: bool)
      returns (result: Result<int, Error>)
      modifies redis, meters
      ensures result == UsageResult(old(redis.Contents()), old(meters.Contents()), licenseId, license,
                                    token, binding, caller, name, units, eventId, now)
      ensures !(1 <= units <= ML.MAX_LICENSE_LIMIT) ==> redis.Contents() == old(redis.Contents())
      ensures meters.Contents()
           == if result.Ok? then ML.ConsumeUnits(old(meters.Contents()), name, units, eventId).0
              else old(meters.Contents())
    {
      if units < 1 || units > ML.MAX_LICENSE_LIMIT {
        return Err(Usage(ML.Invalid));
      }
      var checked := Heartbeat(token, binding, caller, now, redisWorks);
      if checked.Err? {
        return Err(checked.error);
      }
      if !checked.value.policy.licenseType.Metered? {
        return Err(NotMetered);
      }
      var outcome := meters.ConsumeOne(name, units, eventId);
      if outcome.Consumed? || outcome.Replayed? {
        return Ok(outcome.remaining);
      }
      return Err(Usage(outcome));
    }

    /** Dropping one address frees its slots and raises the revision, but only if it held any. */
    method RemoveRegisteredIp(ip: string) returns (revision: Option<nat>)
      modifies this
      ensures registered == set r | r in old(registered) && r.ip != ip
      ensures registered == old(registered) ==> license == old(license) && revision == None
      ensures registered != old(registered) ==>
                license == (if old(license).None? then None
                            else Some(old(license).value.(revision := old(license).value.revision + 1)))
                && revision == if old(license).None? then None else Some(old(license).value.revision + 1)
    {
      var rest := set r | r in registered && r.ip != ip;
      revision := None;
      if rest != registered {
        registered := rest;
        if license.Some? {
          license := Some(license.value.(revision := license.value.revision + 1));
          revision := Some(license.value.revision);
        }
      }
    }
  }

  /** A stored session of this token, if there is one, is the encoding of these fields. */
  ghost predicate StoredAs(s: Store, token: string, licenseId: string, revision: nat, binding: string)
  {
    token in s.keys ==> s.keys[token].value == Encode(licenseId, revision, binding)
  }

  /**
   Whatever scripts ran since it was reserved, removing a session under its own binding leaves
   no key behind: the token resolves to nothing for anyone, at any later time.
   */
  lemma FailedReservationIsGone(s: Store, license: string, revision: nat, binding: string,
                                token: string, now: int, later: int, caller: string)
    requires '|' !in license && StoredAs(s, token, license, revision, binding)
    ensures token !in Remove(s, token, binding, now).0.keys
    ensures Refresh(Remove(s, token, binding, now).0, token, caller, later).1 == None
  {
    LicenseOfEncoded(license, revision, binding);
  }

  /** Why a session check of these columns fails, if it does: the session first, then the license. */
  ghost predicate ChecksOut(error: Option<Error>, current: bool, license: Option<License>, caller: Registration, now: int)
    requires current ==> license.Some?
  {
    error ==
    if !current then Some(SessionInvalidOrExpired)
    else if Revoked(license.value.policy) then Some(LicenseRevoked)
    else if Ended(license.value.policy, now) then Some(LicenseExpired)
    else if !Lists(license.value.allowedIps, caller.ip) then Some(IpNotAllowed)
    else if !Lists(license.value.allowedDevices, caller.deviceId) then Some(DeviceNotAllowed)
    else None
  }

  /**
   From admission to heartbeat, whatever scripts ran in between: a stored session is accepted if
   and only if it has not expired, comes with its own binding, the license still has the revision
   it was admitted under, no revocation is set, no time is over and the allowlists name the caller.
   */
  lemma SessionFollowsLicense(s: Store, licenseId: string, revision: nat, binding: string, token: string,
                              now: int, license: Option<License>, other: string, caller: Registration)
    requires licenseId != "" && '|' !in licenseId && revision <= MAX_SAFE_INTEGER
    requires StoredAs(s, token, licenseId, revision, binding)
    ensures ChecksOut(SessionError(Refresh(s, token, other, now).1, licenseId, license, caller, now),
                      token in s.keys && now < s.keys[token].expiresAt && other == binding
                      && license.Some? && license.value.revision == revision,
                      license, caller, now)
  {
    LicenseOfEncoded(licenseId, revision, binding);
    ReplyReadsBack(licenseId, revision);
    if license.Some? {
      PolicyIsExact(license.value, caller, now);
    }
  }

  lemma SessionIsAcceptedIff(s: Store, token: string, other: string, licenseId: string, license: Option<License>,
                             caller: Registration, now: int)
    ensures token !in s.keys || s.keys[token].expiresAt <= now ==>
              SessionError(Refresh(s, token, other, now).1, licenseId, license, caller, now)
              == Some(SessionInvalidOrExpired)
    ensures forall revision: nat, own: string ::
              token in s.keys && now < s.keys[token].expiresAt
              && s.keys[token].value == Encode(licenseId, revision, own)
              && licenseId != "" && '|' !in licenseId && revision <= MAX_SAFE_INTEGER ==>
                ChecksOut(SessionError(Refresh(s, token, other, now).1, licenseId, license, caller, now),
                          other == own && license.Some? && license.value.revision == revision, license, caller, now)
  {
    forall revision: nat, own: string |
      token in s.keys && now < s.keys[token].expiresAt
      && s.keys[token].value == Encode(licenseId, revision, own)
      && licenseId != "" && '|' !in licenseId && revision <= MAX_SAFE_INTEGER
      ensures ChecksOut(SessionError(Refresh(s, token, other, now).1, licenseId, license, caller, now),
                        other == own && license.Some? && license.value.revision == revision, license, caller, now)
    {
      SessionFollowsLicense(s, licenseId, revision, own, token, now, license, other, caller);
    }
  }

  lemma UsageFollowsCheck(s: Store, ledger: ML.Ledger, licenseId: string, token: string, license: Option<License>,
                          other: string, caller: Registration, name: string, units: int, eventId: string, now: int,
                          error: Option<Error>)
    requires error == SessionError(Refresh(s, token, other, now).1, licenseId, license, caller, now)
    requires ML.IsNew(ledger, eventId)
    ensures
      UsageResult(s, ledger, licenseId, license, token, other, caller, name, units, eventId, now) ==
      if units < 1 || units > 2_147_483_647 then Err(Usage(ML.Invalid))
      else if error.Some? then Err(error.value)
      else if license.None? || license.value.policy.licenseType != Metered then Err(NotMetered)
      else if name !in ledger.meters then Err(Usage(ML.NotFound))
      else if ledger.meters[name].archived then Err(Usage(ML.IsArchived))
      else if ledger.meters[name].balance < units then Err(Usage(ML.Exhausted))
      else Ok(ledger.meters[name].balance - units)
  {
    ML.ConsumptionIsExact(ledger, name, units, eventId);
  }

  /**
   A usage report takes the units from the meter if and only if its session is accepted, the license
   is metered, and the meter is there, active and holds them; the first cause is named otherwise.
   */
  lemma UsageFollowsLicenseAndMeter(s: Store, ledger: ML.Ledger, licenseId: string, revision: nat, binding: string,
                                    token: string, license: Option<License>, other: string, caller: Registration,
                                    name: string, units: int, eventId: string, now: int)
    requires licenseId != "" && '|' !in licenseId && revision <= MAX_SAFE_INTEGER
    requires StoredAs(s, token, licenseId, revision, binding) && ML.IsNew(ledger, eventId)
    ensures
      UsageResult(s, ledger, licenseId, license, token, other, caller, name, units, eventId, now) ==
      if units < 1 || units > 2_147_483_647 then Err(Usage(ML.Invalid))
      else if token !in s.keys || s.keys[token].expiresAt <= now || other != binding
              || license.None? || license.value.revision != revision then Err(SessionInvalidOrExpired)
      else if Revoked(license.value.policy) then Err(LicenseRevoked)
      else if Ended(license.value.policy, now) then Err(LicenseExpired)
      else if !Lists(license.value.allowedIps, caller.ip) then Err(IpNotAllowed)
      else if !Lists(license.value.allowedDevices, caller.deviceId) then Err(DeviceNotAllowed)
      else if license.value.policy.licenseType != Metered then Err(NotMetered)
      else if name !in ledger.meters then Err(Usage(ML.NotFound))
      else if ledger.meters[name].archived then Err(Usage(ML.IsArchived))
      else if ledger.meters[name].balance < units then Err(Usage(ML.Exhausted))
      else Ok(ledger.meters[name].balance - units)
  {
    var error := SessionError(Refresh(s, token, other, now).1, licenseId, license, caller, now);
    SessionFollowsLicense(s, licenseId, revision, binding, token, now, license, other, caller);
    UsageFollowsCheck(s, ledger, licenseId, token, license, other, caller, name, units, eventId, now, error);
  }

  lemma FewerSlots(smaller: set<Registration>, larger: set<Registration>)
    requires smaller <= larger
    ensures |Ips(smaller)| <= |Ips(larger)| && |Devices(smaller)| <= |Devices(larger)|
  {
    SubsetSize(Ips(smaller), Ips(larger));
    SubsetSize(Devices(smaller), Devices(larger));
  }
}
