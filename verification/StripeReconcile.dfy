/**
 Linking and reconciling a Stripe subscription. Both read Stripe and write the result while
 they hold the subscription's lock; unlinking, admin updates and every other write to the
 license take no such lock and come in between.
 */
module StripeReconcile {
  import opened Wrappers
  import opened LicenseTx
  import LR = LicenseRecord

  /** What Stripe returns for a subscription. */
  datatype Snapshot = Snapshot(status: string, paidThrough: Option<int>, billingBlocked: bool)

  /** Stripe's current state of one subscription; the version counts its changes. */
  datatype Register = Register(version: nat, snapshot: Snapshot)

  /** One snapshot written to the link: what was fetched, at which version, and the caller's time. */
  datatype Sync = Sync(snapshot: Snapshot, version: nat, at: int)

  function BillingRevokedAt(snapshot: Snapshot, existing: Option<Link>, now: int): Option<int>
  {
    if !snapshot.billingBlocked then None
    else if existing.Some? && existing.value.billingRevokedAt.Some? then existing.value.billingRevokedAt
    else Some(now)
  }

  /** The later of the caller's time and the last synchronization. */
  function SynchronizedAt(existing: Option<Link>, now: int): int
  {
    if existing.Some? && existing.value.lastSyncedAt.Some? && existing.value.lastSyncedAt.value > now then
      existing.value.lastSyncedAt.value
    else now
  }

  function LinkFrom(subscription: string, snapshot: Snapshot, existing: Option<Link>, now: int): Link
  {
    var at := SynchronizedAt(existing, now);
    Link(subscription, snapshot.status, snapshot.paidThrough, BillingRevokedAt(snapshot, existing, at), Some(at))
  }

  function LinkOf(db: Db, subscription: string): Option<Link>
  {
    if db.link.Some? && db.link.value.subscriptionId == subscription then db.link else None
  }

  /** A request that holds a subscription's lock, before and after it has read Stripe. */
  datatype Flow =
    | Locked(subscription: string, existing: Option<Link>, now: int)
    | Fetched(subscription: string, existing: Option<Link>, now: int, version: nat, snapshot: Snapshot)

  /** `log` holds the snapshots written to the current link since it was created. */
  datatype State = State(
    db: Db,
    stripe: map<string, Register>,
    locks: map<string, nat>,
    flows: map<nat, Flow>,
    log: seq<Sync>)

  /** `elsewhere`: the subscription is linked to another license; `writes` are other writers of the license. */
  datatype Step =
    | StripeChanges(subscription: string, snapshot: Snapshot)
    | BeginReconcile(p: nat, subscription: string, now: int)
    | BeginLink(p: nat, subscription: string, now: int, elsewhere: bool)
    | Fetch(p: nat)
    | Commit(p: nat, elsewhere: bool, clockUs: int)
    | Abort(p: nat)
    | Unlink
    | Update(data: UpdateData, options: UpdateOptions, clockUs: int)
    | Rotate(keyHash: string, expectedUpdatedAt: int, clockUs: int)
    | OtherWrite(write: LR.Step)

  function Release(s: State, p: nat, subscription: string): State
  {
    s.(flows := s.flows - {p}, locks := s.locks - {subscription})
  }

  function Acquire(s: State, p: nat, subscription: string, existing: Option<Link>, now: int): State
  {
    s.(flows := s.flows[p := Locked(subscription, existing, now)], locks := s.locks[subscription := p])
  }

  /** The log of a license whose link may just have been removed. */
  function WithDb(s: State, db: Db): State
  {
    s.(db := db, log := if db.link.None? then [] else s.log)
  }

  function CommitFlow(s: State, p: nat, f: Flow, elsewhere: bool, clockUs: int): State
    requires f.Fetched?
  {
    var link := LinkFrom(f.subscription, f.snapshot, f.existing, f.now);
    var sync := Sync(f.snapshot, f.version, f.now);
    var free := Release(s, p, f.subscription);
    if f.existing.Some? then
      var (db, outcome) := ReconcileTx(s.db, link, clockUs);
      if outcome.Updated? then free.(db := db, log := s.log + [sync]) else WithDb(free, db)
    else if elsewhere then free
    else
      match CreateLinkTx(s.db, link, clockUs)
      case Err(_) => free
      case Ok(db) => free.(db := db, log := [sync])
  }

  predicate IsPlainWrite(write: LR.Step)
  {
    write.Invalidate? || write.Restore? || write.StartTrial? || write.DraftMeters? || write.ChangeMeters?
  }

  function Next(s: State, step: Step): Option<State>
  {
    match step
    case StripeChanges(subscription, snapshot) =>
      var version := if subscription in s.stripe then s.stripe[subscription].version + 1 else 0;
      Some(s.(stripe := s.stripe[subscription := Register(version, snapshot)]))
    case BeginReconcile(p, subscription, now) =>
      if p in s.flows || subscription in s.locks then None
      else if LinkOf(s.db, subscription).None? then Some(s)
      else Some(Acquire(s, p, subscription, LinkOf(s.db, subscription), now))
    case BeginLink(p, subscription, now, elsewhere) =>
      if p in s.flows || subscription in s.locks then None
      else if s.db.link.Some? || elsewhere then Some(s)
      else Some(Acquire(s, p, subscription, None, now))
    case Fetch(p) =>
      if p !in s.flows || !s.flows[p].Locked? || s.flows[p].subscription !in s.stripe then None
      else
        var f := s.flows[p];
        var read := s.stripe[f.subscription];
        Some(s.(flows := s.flows[p := Fetched(f.subscription, f.existing, f.now, read.version, read.snapshot)]))
    case Commit(p, elsewhere, clockUs) =>
      if p !in s.flows || !s.flows[p].Fetched? then None
      else Some(CommitFlow(s, p, s.flows[p], elsewhere, clockUs))
    case Abort(p) =>
      if p !in s.flows then None else Some(Release(s, p, s.flows[p].subscription))
    case Unlink => Some(WithDb(s, UnlinkTx(s.db)))
    case Update(data, options, clockUs) =>
      (match UpdateTx(s.db, data, options, clockUs)
       case Err(_) => Some(s)
       case Ok(db) => Some(WithDb(s, db)))
    case Rotate(keyHash, expectedUpdatedAt, clockUs) =>
      (match RotateTx(s.db, keyHash, expectedUpdatedAt, clockUs)
       case Err(_) => Some(s)
       case Ok(db) => Some(s.(db := db)))
    case OtherWrite(write) =>
      if !IsPlainWrite(write) then None else Some(s.(db := LR.DbNext(s.db, write).value))
  }

  // ---------------------------------------------------------------- what the link should say

  /** The latest synchronization time so far. */
  function SyncTime(log: seq<Sync>): int
    requires log != []
  {
    var n := |log| - 1;
    if n == 0 then log[0].at else Max(SyncTime(log[..n]), log[n].at)
  }

  /** The last paid-through date Stripe gave. */
  function LastPaid(log: seq<Sync>): Option<int>
  {
    if log == [] then None
    else
      var n := |log| - 1;
      if log[n].snapshot.paidThrough.Some? then log[n].snapshot.paidThrough else LastPaid(log[..n])
  }

  /** Since when the license is blocked: the first snapshot of the trailing run of blocked ones. */
  function BlockedSince(log: seq<Sync>): Option<int>
  {
    if log == [] || !log[|log| - 1].snapshot.billingBlocked then None
    else
      var before := BlockedSince(log[..|log| - 1]);
      if before.Some? then before else Some(SyncTime(log))
  }

  /** Snapshot k is blocked, so is every later one, and the one before it is not. */
  ghost predicate StartsBlock(log: seq<Sync>, k: nat)
  {
    k < |log|
    && (forall i | k <= i < |log| :: log[i].snapshot.billingBlocked)
    && (k > 0 ==> !log[k - 1].snapshot.billingBlocked)
  }

  /**
   The billing revocation is absent exactly when the newest snapshot is not blocked; otherwise
   it is the synchronization time of the snapshot that started the current block.
   */
  lemma {:induction false} BlockedSinceIsFirst(log: seq<Sync>, k: nat)
    requires log != []
    ensures BlockedSince(log).None? <==> !log[|log| - 1].snapshot.billingBlocked
    ensures StartsBlock(log, k) ==> BlockedSince(log) == Some(SyncTime(log[..k + 1]))
  {
    var n := |log| - 1;
    if n > 0 {
      BlockedSinceIsFirst(log[..n], k);
      if StartsBlock(log, k) {
        if k < n {
          assert StartsBlock(log[..n], k);
          assert log[..n][..k + 1] == log[..k + 1];
        } else {
          assert log[..k + 1] == log;
          assert log[..n][n - 1] == log[n - 1];
        }
      }
    } else {
      assert log[..1] == log;
    }
  }

  lemma {:induction false} SyncTimeIsMax(log: seq<Sync>)
    requires log != []
    ensures forall i | 0 <= i < |log| :: log[i].at <= SyncTime(log)
    ensures exists i | 0 <= i < |log| :: log[i].at == SyncTime(log)
  {
    var n := |log| - 1;
    if n > 0 {
      SyncTimeIsMax(log[..n]);
      var i :| 0 <= i < n && log[..n][i].at == SyncTime(log[..n]);
      assert log[i].at == SyncTime(log[..n]);
      forall k | 0 <= k < |log| ensures log[k].at <= SyncTime(log) {
        if k < n {
          assert log[..n][k] == log[k];
        }
      }
      assert log[if SyncTime(log) == log[n].at then n else i].at == SyncTime(log);
    } else {
      assert log[0].at == SyncTime(log);
    }
  }

  // ---------------------------------------------------------------- invariant

  /** The link and the license expiry are those of the snapshots written so far. */
  ghost predicate Mirrors(db: Db, log: seq<Sync>)
  {
    if db.link.None? then log == []
    else
      && log != []
      && var link, last := db.link.value, log[|log| - 1];
         && link.status == last.snapshot.status
         && link.paidThrough == last.snapshot.paidThrough
         && link.billingRevokedAt == BlockedSince(log)
         && link.lastSyncedAt == Some(SyncTime(log))
         && LastPaid(log).Some? && db.row.expiresAt == LastPaid(log)
  }

  /** Snapshots are written in the order Stripe went through them. */
  ghost predicate InOrder(log: seq<Sync>)
  {
    forall i, j | 0 <= i < j < |log| :: log[i].version <= log[j].version
  }

  /** Nothing in the log is ahead of Stripe. */
  ghost predicate NotAhead(s: State)
  {
    s.db.link.Some? ==>
      var subscription := s.db.link.value.subscriptionId;
      subscription in s.stripe && s.log != []
      && s.log[|s.log| - 1].version <= s.stripe[subscription].version
  }

  /** What a lock holder found still stands, unless the link has been removed meanwhile. */
  ghost predicate FlowInv(s: State, p: nat, f: Flow)
  {
    && f.subscription in s.locks && s.locks[f.subscription] == p
    && (f.existing.Some? ==> f.existing.value.subscriptionId == f.subscription)
    && (LinkOf(s.db, f.subscription).Some? ==> f.existing == LinkOf(s.db, f.subscription))
    && (f.Fetched? ==>
          f.subscription in s.stripe && f.version <= s.stripe[f.subscription].version
          && (LinkOf(s.db, f.subscription).Some? ==> s.log != [] && s.log[|s.log| - 1].version <= f.version))
  }

  ghost predicate Inv(s: State)
  {
    && LR.LinkAgrees(s.db) && Mirrors(s.db, s.log) && InOrder(s.log) && NotAhead(s)
    && forall p | p in s.flows :: FlowInv(s, p, s.flows[p])
  }

  ghost predicate Init(s: State)
  {
    s.db.link == None && s.log == [] && s.flows == map[] && s.locks == map[]
  }

  // ---------------------------------------------------------------- the invariant holds

  lemma SyncTimeAppend(log: seq<Sync>, sync: Sync)
    requires log != []
    ensures SyncTime(log + [sync]) == Max(SyncTime(log), sync.at)
    ensures LastPaid(log + [sync]) == if sync.snapshot.paidThrough.Some? then sync.snapshot.paidThrough else LastPaid(log)
    ensures BlockedSince(log + [sync])
         == if !sync.snapshot.billingBlocked then None
            else if BlockedSince(log).Some? then BlockedSince(log) else Some(SyncTime(log + [sync]))
  {
    assert (log + [sync])[..|log|] == log;
  }

  /** Reconciling from the current link extends the log by one snapshot and mirrors it. */
  lemma ReconcileMirrors(db: Db, log: seq<Sync>, sync: Sync, clockUs: int)
    requires Mirrors(db, log) && LR.LinkAgrees(db) && db.link.Some?
    ensures var subscription := db.link.value.subscriptionId;
            var (after, outcome) :=
              ReconcileTx(db, LinkFrom(subscription, sync.snapshot, db.link, sync.at), clockUs);
            outcome.Updated? && Mirrors(after, log + [sync]) && LR.LinkAgrees(after)
            && after.link.value.subscriptionId == subscription
  {
    SyncTimeAppend(log, sync);
  }

  lemma CreateMirrors(db: Db, subscription: string, sync: Sync, clockUs: int)
    requires CreateLinkTx(db, LinkFrom(subscription, sync.snapshot, None, sync.at), clockUs).Ok?
    ensures var after := CreateLinkTx(db, LinkFrom(subscription, sync.snapshot, None, sync.at), clockUs).value;
            Mirrors(after, [sync]) && LR.LinkAgrees(after) && after.link.value.subscriptionId == subscription
  {
    assert [sync][..0] == [];
  }

  lemma OrderGrows(log: seq<Sync>, sync: Sync)
    requires InOrder(log) && log != [] && log[|log| - 1].version <= sync.version
    ensures InOrder(log + [sync])
  {
  }

  lemma CommitKeepsMirror(s: State, p: nat, elsewhere: bool, clockUs: int)
    requires Inv(s) && p in s.flows && s.flows[p].Fetched?
    ensures var s' := CommitFlow(s, p, s.flows[p], elsewhere, clockUs);
            LR.LinkAgrees(s'.db) && Mirrors(s'.db, s'.log) && InOrder(s'.log) && NotAhead(s')
  {
    var f := s.flows[p];
    assert FlowInv(s, p, f);
    var sync := Sync(f.snapshot, f.version, f.now);
    if f.existing.Some? && LinkOf(s.db, f.subscription).Some? {
      ReconcileMirrors(s.db, s.log, sync, clockUs);
      OrderGrows(s.log, sync);
    } else if f.existing.None? && !elsewhere
              && CreateLinkTx(s.db, LinkFrom(f.subscription, f.snapshot, None, f.now), clockUs).Ok? {
      CreateMirrors(s.db, f.subscription, sync, clockUs);
    }
  }

  /** A holder of another subscription's lock is not affected by a commit. */
  lemma CommitKeepsFlows(s: State, p: nat, elsewhere: bool, clockUs: int)
    requires Inv(s) && p in s.flows && s.flows[p].Fetched?
    ensures var s' := CommitFlow(s, p, s.flows[p], elsewhere, clockUs);
            forall q | q in s'.flows :: FlowInv(s', q, s'.flows[q])
  {
    var s' := CommitFlow(s, p, s.flows[p], elsewhere, clockUs);
    var f := s.flows[p];
    assert FlowInv(s, p, f);
    forall q | q in s'.flows ensures FlowInv(s', q, s'.flows[q]) {
      assert FlowInv(s, q, s.flows[q]) && q != p;
      var g := s.flows[q];
      assert g.subscription != f.subscription;
      assert LinkOf(s'.db, g.subscription).Some? ==>
          LinkOf(s.db, g.subscription) == LinkOf(s'.db, g.subscription) && s'.log == s.log;
    }
  }

  /** A write that leaves the link and the expiry of a linked license alone, or removes the link. */
  lemma WriteKeepsInv(s: State, db: Db)
    requires Inv(s)
    requires db.link.None? || (db.link == s.db.link && db.row.expiresAt == s.db.row.expiresAt
                               && db.row.licenseType.Subscription?)
    ensures Inv(WithDb(s, db))
  {
    var s' := WithDb(s, db);
    forall p | p in s'.flows ensures FlowInv(s', p, s'.flows[p]) {
      assert FlowInv(s, p, s.flows[p]);
    }
  }

  lemma BeginKeepsInv(s: State, p: nat, subscription: string, existing: Option<Link>, now: int)
    requires Inv(s) && p !in s.flows && subscription !in s.locks && existing == LinkOf(s.db, subscription)
    ensures Inv(Acquire(s, p, subscription, existing, now))
  {
    var s' := Acquire(s, p, subscription, existing, now);
    forall q | q in s'.flows ensures FlowInv(s', q, s'.flows[q]) {
      assert q != p ==> FlowInv(s, q, s.flows[q]);
    }
  }

  lemma AbortKeepsInv(s: State, p: nat)
    requires Inv(s) && p in s.flows
    ensures Inv(Release(s, p, s.flows[p].subscription))
  {
    var s' := Release(s, p, s.flows[p].subscription);
    assert FlowInv(s, p, s.flows[p]);
    forall q | q in s'.flows ensures FlowInv(s', q, s'.flows[q]) {
      assert FlowInv(s, q, s.flows[q]);
    }
  }

  lemma StripeKeepsInv(s: State, step: Step)
    requires Inv(s) && (step.StripeChanges? || step.Fetch?) && Next(s, step).Some?
    ensures Inv(Next(s, step).value)
  {
    var s' := Next(s, step).value;
    forall q | q in s'.flows ensures FlowInv(s', q, s'.flows[q]) {
      assert FlowInv(s, q, s.flows[q]);
    }
  }

  lemma NextKeepsInv(s: State, step: Step)
    requires Inv(s) && Next(s, step).Some?
    ensures Inv(Next(s, step).value)
  {
    match step {
      case StripeChanges(_, _) => StripeKeepsInv(s, step);
      case Fetch(_) => StripeKeepsInv(s, step);
      case BeginReconcile(p, subscription, now) =>
        if LinkOf(s.db, subscription).Some? {
          BeginKeepsInv(s, p, subscription, LinkOf(s.db, subscription), now);
        }
      case BeginLink(p, subscription, now, elsewhere) =>
        if s.db.link.None? && !elsewhere {
          BeginKeepsInv(s, p, subscription, None, now);
        }
      case Commit(p, elsewhere, clockUs) =>
        CommitKeepsMirror(s, p, elsewhere, clockUs);
        CommitKeepsFlows(s, p, elsewhere, clockUs);
      case Abort(p) => AbortKeepsInv(s, p);
      case Unlink => WriteKeepsInv(s, UnlinkTx(s.db));
      case Update(data, options, clockUs) =>
        if UpdateTx(s.db, data, options, clockUs).Ok? {
          WriteKeepsInv(s, UpdateTx(s.db, data, options, clockUs).value);
        }
      case Rotate(keyHash, expectedUpdatedAt, clockUs) =>
        if RotateTx(s.db, keyHash, expectedUpdatedAt, clockUs).Ok? {
          WriteKeepsInv(s, RotateTx(s.db, keyHash, expectedUpdatedAt, clockUs).value);
        }
      case OtherWrite(write) =>
        WriteKeepsInv(s, LR.DbNext(s.db, write).value);
    }
  }

  lemma StepKeepsInv(s: State, step: Step, s': State)
    requires Inv(s) && Next(s, step) == Some(s')
    ensures Inv(s')
  {
    NextKeepsInv(s, step);
  }

  // ---------------------------------------------------------------- runs

  ghost predicate Run(states: seq<State>, steps: seq<Step>)
  {
    && |states| == |steps| + 1 && Init(states[0])
    && forall i | 0 <= i < |steps| :: Next(states[i], steps[i]) == Some(states[i + 1])
  }

  /**
   Convergence: in every reachable state, whatever the order, duplication or interleaving, the
   link mirrors the newest snapshot written, the revocation and the synchronization time
   follow from the snapshots so far, and the license expires with the last known paid period.
   */
  lemma {:induction false} LinkMirrorsStripe(states: seq<State>, steps: seq<Step>, i: nat)
    requires Run(states, steps) && i < |states|
    ensures Mirrors(states[i].db, states[i].log) && InOrder(states[i].log) && NotAhead(states[i])
    ensures LR.LinkAgrees(states[i].db)
    ensures forall p | p in states[i].flows :: FlowInv(states[i], p, states[i].flows[p])
  {
    if i > 0 {
      var k := i - 1;
      LinkMirrorsStripe(states, steps, k);
      assert Next(states[k], steps[k]) == Some(states[k + 1]);
      StepKeepsInv(states[k], steps[k], states[i]);
    }
  }

  /** No regress: a commit never replaces a snapshot by an older one, however late it comes. */
  lemma CommitNeverRegresses(states: seq<State>, steps: seq<Step>, i: nat, elsewhere: bool, clockUs: int, p: nat)
    requires Run(states, steps) && i < |states|
    requires p in states[i].flows && states[i].flows[p].Fetched?
    requires LinkOf(states[i].db, states[i].flows[p].subscription).Some?
    ensures var s, f := states[i], states[i].flows[p];
            var s' := CommitFlow(s, p, f, elsewhere, clockUs);
            && s.log != [] && s.log[|s.log| - 1].version <= f.version
            && s'.log == s.log + [Sync(f.snapshot, f.version, f.now)]
            && s'.db.link.Some? && s'.db.link.value.status == f.snapshot.status
            && s'.db.link.value.paidThrough == f.snapshot.paidThrough
            && s'.db.link.value.billingRevokedAt.Some? == f.snapshot.billingBlocked
  {
    LinkMirrorsStripe(states, steps, i);
    var s, f := states[i], states[i].flows[p];
    assert FlowInv(s, p, f);
    CommitKeepsMirror(s, p, elsewhere, clockUs);
    ReconcileMirrors(s.db, s.log, Sync(f.snapshot, f.version, f.now), clockUs);
    BlockedSinceIsFirst(CommitFlow(s, p, f, elsewhere, clockUs).log, 0);
  }

  // ---------------------------------------------------------------- the service, in place

  /** The body of a reconciliation under its lock; `fetched` is what Stripe returned. */
  class SubscriptionService {
    const tables: LicenseTables

    constructor (tables: LicenseTables)
      ensures this.tables == tables
    {
      this.tables := tables;
    }

    method ReconcileSubscription(subscription: string, fetched: Snapshot, now: int, clockUs: int)
      returns (outcome: Reconciled)
      modifies tables
      ensures var db := old(tables.Contents());
              match LinkOf(db, subscription)
              case None => outcome == NotFound && tables.Contents() == db
              case Some(existing) =>
                (tables.Contents(), outcome)
                == ReconcileTx(db, LinkFrom(subscription, fetched, Some(existing), now), clockUs)
    {
      if tables.link.None? || tables.link.value.subscriptionId != subscription {
        return NotFound;
      }
      var existing := tables.link.value;
      var synchronizedAt := now;
      if existing.lastSyncedAt.Some? && existing.lastSyncedAt.value > now {
        synchronizedAt := existing.lastSyncedAt.value;
      }
      var revokedAt := BillingRevokedAt(fetched, Some(existing), synchronizedAt);
      outcome := tables.Reconcile(
        Link(subscription, fetched.status, fetched.paidThrough, revokedAt, Some(synchronizedAt)), clockUs);
    }

    /** Linking again to the same subscription reconciles; `elsewhere` says another license holds it. */
    method LinkLicense(subscription: string, fetched: Snapshot, elsewhere: bool, now: int, clockUs: int)
      returns (error: Option<Error>)
      modifies tables
      ensures var db := old(tables.Contents());
              if !db.row.licenseType.Subscription? then error == Some(NotSubscription) && tables.Contents() == db
              else
                match LinkOf(db, subscription)
                case Some(existing) =>
                  error == None
                  && tables.Contents()
                     == ReconcileTx(db, LinkFrom(subscription, fetched, Some(existing), now), clockUs).0
                case None =>
                  if db.link.Some? || elsewhere then error == Some(AlreadyLinked) && tables.Contents() == db
                  else
                    match CreateLinkTx(db, LinkFrom(subscription, fetched, None, now), clockUs)
                    case Err(e) => error == Some(e) && tables.Contents() == db
                    case Ok(after) => error == None && tables.Contents() == after
    {
      if !tables.row.licenseType.Subscription? {
        return Some(NotSubscription);
      }
      if tables.link.Some? {
        if tables.link.value.subscriptionId == subscription {
          var _ := ReconcileSubscription(subscription, fetched, now, clockUs);
          return None;
        }
        return Some(AlreadyLinked);
      }
      if elsewhere {
        return Some(AlreadyLinked);
      }
      if fetched.paidThrough.None? {
        return Some(PeriodMissing);
      }
      error := tables.CreateLink(
        Link(subscription, fetched.status, fetched.paidThrough, BillingRevokedAt(fetched, None, now), Some(now)), clockUs);
    }
  }
}
