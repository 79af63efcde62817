/** The one effective status of a license, which admission and session checks both read. */
module LicenseStatus {
  import opened Wrappers

  const MINUTE_MS: int := 60_000

  datatype LicenseType = Lifetime | Subscription | Metered | Trial

  /** The columns the status is derived from; the billing revocation comes from the Stripe link. */
  datatype Policy = Policy(
    licenseType: LicenseType,
    expiresAt: Option<int>,
    trialDurationMinutes: int,
    trialStartedAt: Option<int>,
    manualRevokedAt: Option<int>,
    billingRevokedAt: Option<int>)

  datatype Status =
    | Active
    | ManuallyRevoked
    | BillingRevoked
    | SubscriptionExpired
    | TrialExpired

  function DeriveLicenseStatus(p: Policy, now: int): Status
  {
    if p.manualRevokedAt.Some? then ManuallyRevoked
    else if p.billingRevokedAt.Some? then BillingRevoked
    else if p.licenseType.Subscription? && (p.expiresAt.None? || p.expiresAt.value <= now) then SubscriptionExpired
    else if p.licenseType.Trial? && p.trialStartedAt.Some?
            && now >= p.trialStartedAt.value + p.trialDurationMinutes * MINUTE_MS then TrialExpired
    else Active
  }

  /** A revocation is set, by an admin or by billing. */
  ghost predicate Revoked(p: Policy)
  {
    p.manualRevokedAt != None || p.billingRevokedAt != None
  }

  /** The time a subscription or a started trial was given is over; a subscription without an expiry has none left. */
  ghost predicate Ended(p: Policy, now: int)
  {
    match p.licenseType
    case Subscription => p.expiresAt.Some? ==> p.expiresAt.value <= now
    case Trial => p.trialStartedAt.Some? && p.trialStartedAt.value + p.trialDurationMinutes * 60_000 <= now
    case _ => false
  }

  predicate IsActive(p: Policy, now: int)
  {
    DeriveLicenseStatus(p, now).Active?
  }

  /** A license is active if and only if no revocation is set and its time is not over; revocations are named first. */
  lemma StatusIsExact(p: Policy, now: int)
    ensures IsActive(p, now) <==> !Revoked(p) && !Ended(p, now)
    ensures DeriveLicenseStatus(p, now).ManuallyRevoked? <==> p.manualRevokedAt != None
    ensures DeriveLicenseStatus(p, now).BillingRevoked? <==> p.manualRevokedAt == None && p.billingRevokedAt != None
    ensures DeriveLicenseStatus(p, now).SubscriptionExpired? <==>
              !Revoked(p) && Ended(p, now) && p.licenseType == Subscription
    ensures DeriveLicenseStatus(p, now).TrialExpired? <==>
              !Revoked(p) && Ended(p, now) && p.licenseType == Trial
  {
  }

  /**
   A policy that nobody edits loses access at one instant: before it the license is active,
   from it on it is not. Without a revocation that instant is the expiry of a subscription
   or the end of a started trial; other types have none.
   */
  lemma AccessEndsOnce(p: Policy, early: int, late: int)
    requires early <= late
    ensures IsActive(p, late) ==> IsActive(p, early)
    ensures IsActive(p, early) && !IsActive(p, late) ==>
              (p.licenseType.Subscription? && early < p.expiresAt.value <= late)
              || (p.licenseType.Trial? && p.trialStartedAt.Some?
                  && early < p.trialStartedAt.value + p.trialDurationMinutes * MINUTE_MS <= late)
  {
  }

  /** Payment recovery clears a billing revocation only; a manual one stays in force. */
  lemma RevocationsAreIndependent(p: Policy, now: int)
    ensures p.manualRevokedAt.Some? <==> DeriveLicenseStatus(p.(billingRevokedAt := None), now).ManuallyRevoked?
    ensures IsActive(p, now) <==>
              p.manualRevokedAt.None? && p.billingRevokedAt.None?
              && IsActive(p.(manualRevokedAt := None, billingRevokedAt := None), now)
  {
  }
}
