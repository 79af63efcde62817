/**
 One license's rows in PostgreSQL, the transactions that write them, and the admin service's
 computation of an update from what it read earlier. A transaction is atomic; which reads
 and writes interleave around it is the subject of LicenseRecord.
 */
module LicenseTx {
  import opened Wrappers
  import opened LicenseStatus
  import ML = MeterLedger

  // ---------------------------------------------------------------- rows

  datatype Limits = Limits(maxIps: nat, maxDevices: nat, maxSessions: nat)

  /** Dormant settings per type; a subscription draft may hold no expiry. */
  datatype Drafts = Drafts(
    lifetime: bool,
    subscription: Option<Option<int>>,
    metered: Option<set<string>>,
    trial: Option<int>)

  datatype Row = Row(
    licenseType: LicenseType,
    trialDuration: int,
    trialStartedAt: Option<int>,
    expiresAt: Option<int>,
    drafts: Drafts,
    limits: Limits,
    revision: nat,
    keyHash: string,
    manualRevokedAt: Option<int>,
    updatedAt: int)

  datatype Link = Link(
    subscriptionId: string,
    status: string,
    paidThrough: Option<int>,
    billingRevokedAt: Option<int>,
    lastSyncedAt: Option<int>)

  datatype Db = Db(row: Row, link: Option<Link>, ledger: ML.Ledger)

  datatype Error =
    | ConcurrentChange
    | MeterExists
    | NoActiveMeter
    | UnlinkNotConfirmed
    | StripeManaged
    | NotSubscription
    | PeriodMissing
    | AlreadyLinked
    | NoFields
    | ExpiryNotAllowed
    | DurationNotAllowed
    | MetersNotAllowed
    | DuplicateMeter
    | InvalidNumber
    | ExpiryRequired
    | ExpiryNotFuture
    | DurationRequired

  // ---------------------------------------------------------------- versions

  /** A microsecond timestamp stored in a column of millisecond precision. */
  function RoundToMs(us: int): (ms: int)
    ensures us - 500 < ms * 1000 <= us + 500
  {
    (us + 500) / 1000
  }

  /** `greatest(clock_timestamp(), updated_at + 1 ms)`, stored in milliseconds. */
  function NextUpdatedAt(clockUs: int, updatedAt: int): (next: int)
    ensures next >= updatedAt + 1
    ensures next >= RoundToMs(clockUs)
    ensures next == updatedAt + 1 || next == RoundToMs(clockUs)
  {
    RoundToMs(Max(clockUs, updatedAt * 1000 + 1000))
  }

  function Stamp(row: Row, clockUs: int): Row
  {
    row.(updatedAt := NextUpdatedAt(clockUs, row.updatedAt))
  }

  // ---------------------------------------------------------------- transactions

  /** `trialStartedAt` is written only when the type changes. */
  datatype UpdateData = UpdateData(
    licenseType: LicenseType,
    trialDuration: int,
    trialStartedAt: Option<Option<int>>,
    expiresAt: Option<int>,
    drafts: Drafts,
    limits: Limits)

  datatype UpdateOptions = UpdateOptions(
    confirmStripeUnlink: bool,
    expectedUpdatedAt: int,
    manualExpiresAtUpdate: bool,
    newMeters: seq<ML.NewMeter>)

  function Written(row: Row, data: UpdateData): Row
  {
    row.(licenseType := data.licenseType, trialDuration := data.trialDuration,
    trialStartedAt := if data.trialStartedAt.Some? then data.trialStartedAt.value else row.trialStartedAt,
    expiresAt := data.expiresAt, drafts := data.drafts, limits := data.limits)
  }

  /** A linked subscription keeps its expiry, and its draft follows the paid-through date. */
  function ForLinked(row: Row, link: Link, data: UpdateData): UpdateData
  {
    data.(expiresAt := row.expiresAt,
    drafts := if link.paidThrough.Some? then data.drafts.(subscription := Some(link.paidThrough)) else data.drafts)
  }

  function UpdateTx(db: Db, data: UpdateData, options: UpdateOptions, clockUs: int): Result<Db, Error>
  {
    if db.row.updatedAt != options.expectedUpdatedAt then Err(ConcurrentChange)
    else
      match ML.InsertMeters(db.ledger, options.newMeters)
      case None => Err(MeterExists)
      case Some(ledger) =>
        if data.licenseType.Metered? && ML.Active(ledger.meters) == {} then Err(NoActiveMeter)
        else if !data.licenseType.Subscription? then
          if db.link.Some? && !options.confirmStripeUnlink then Err(UnlinkNotConfirmed)
          else Ok(Db(Stamp(Written(db.row, data), clockUs), None, ledger))
        else if db.link.Some? then
          if options.manualExpiresAtUpdate then Err(StripeManaged)
          else Ok(Db(Stamp(Written(db.row, ForLinked(db.row, db.link.value, data)), clockUs), db.link, ledger))
        else Ok(Db(Stamp(Written(db.row, data), clockUs), None, ledger))
  }

  function RotateTx(db: Db, keyHash: string, expectedUpdatedAt: int, clockUs: int): Result<Db, Error>
  {
    if db.row.updatedAt != expectedUpdatedAt then Err(ConcurrentChange)
    else Ok(db.(row := Stamp(db.row.(keyHash := keyHash, revision := db.row.revision + 1), clockUs)))
  }

  /** Session invalidation, alone or together with a revocation. */
  function InvalidateTx(db: Db, revokedAt: Option<int>, clockUs: int): Db
  {
    db.(row := Stamp(db.row.(revision := db.row.revision + 1,
                     manualRevokedAt := if revokedAt.Some? then revokedAt else db.row.manualRevokedAt), clockUs))
  }

  function RestoreTx(db: Db, clockUs: int): Db
  {
    db.(row := Stamp(db.row.(manualRevokedAt := None), clockUs))
  }

  function StartTrialTx(db: Db, startedAt: int, clockUs: int): Db
  {
    if db.row.licenseType.Trial? && db.row.trialStartedAt.None? then
      db.(row := Stamp(db.row.(trialStartedAt := Some(startedAt)), clockUs))
    else db
  }

  function MeterDraftTx(db: Db, names: set<string>, clockUs: int): Db
  {
    db.(row := Stamp(db.row.(drafts := db.row.drafts.(metered := Some(names))), clockUs))
  }

  /** Creating, consuming from, adjusting or archiving a meter; archiving looks at the locked type. */
  function MeterTx(db: Db, op: ML.Op): Db
  {
    var actual := if op.DoArchive? then op.(metered := db.row.licenseType.Metered?) else op;
    db.(ledger := ML.Apply(db.ledger, actual).0)
  }

  function CreateLinkTx(db: Db, link: Link, clockUs: int): Result<Db, Error>
  {
    if !db.row.licenseType.Subscription? then Err(NotSubscription)
    else if link.paidThrough.None? then Err(PeriodMissing)
    else if db.link.Some? then Err(AlreadyLinked)
    else Ok(db.(link := Some(link), row := Stamp(db.row.(expiresAt := link.paidThrough), clockUs)))
  }

  datatype Reconciled = NotFound | Deleted | Updated

  function ReconcileTx(db: Db, link: Link, clockUs: int): (Db, Reconciled)
  {
    if db.link.None? || db.link.value.subscriptionId != link.subscriptionId then (db, NotFound)
    else if !db.row.licenseType.Subscription? then (db.(link := None), Deleted)
    else if link.paidThrough.Some? then
      (db.(link := Some(link), row := Stamp(db.row.(expiresAt := link.paidThrough), clockUs)), Updated)
    else (db.(link := Some(link)), Updated)
  }

  function UnlinkTx(db: Db): Db
  {
    db.(link := None)
  }

  // ---------------------------------------------------------------- what each transaction does to the columns

  /** The row has these columns, and a version above the one before that is the next millisecond or the clock's. */
  ghost predicate Rewritten(row: Row, columns: Row, after: Row, clockUs: int)
  {
    && after == columns.(updatedAt := after.updatedAt)
    && after.updatedAt > row.updatedAt && after.updatedAt >= RoundToMs(clockUs)
    && (after.updatedAt == row.updatedAt + 1 || after.updatedAt == RoundToMs(clockUs))
  }

  /** Every invalidation raises the revision by one; a revocation given with it is set, one in force is kept. */
  lemma InvalidationIsExact(db: Db, revokedAt: Option<int>, clockUs: int)
    ensures
      var after := InvalidateTx(db, revokedAt, clockUs);
      && after.row.revision == db.row.revision + 1
      && (revokedAt.Some? ==> after.row.manualRevokedAt == revokedAt)
      && (revokedAt.None? ==> after.row.manualRevokedAt == db.row.manualRevokedAt)
      && Rewritten(db.row, db.row.(revision := after.row.revision, manualRevokedAt := after.row.manualRevokedAt),
                   after.row, clockUs)
      && after.link == db.link && after.ledger == db.ledger
  {
  }

  /** A rotation changes key and revision together, and only on the version that was read. */
  lemma RotationIsExact(db: Db, keyHash: string, expectedUpdatedAt: int, clockUs: int)
    ensures
      var rotated := RotateTx(db, keyHash, expectedUpdatedAt, clockUs);
      if db.row.updatedAt != expectedUpdatedAt then rotated == Err(ConcurrentChange)
      else
        && rotated.Ok?
        && rotated.value.row.keyHash == keyHash && rotated.value.row.revision == db.row.revision + 1
        && Rewritten(db.row, db.row.(keyHash := keyHash, revision := rotated.value.row.revision),
                     rotated.value.row, clockUs)
        && rotated.value.link == db.link && rotated.value.ledger == db.ledger
  {
  }

  /** Restoring lifts the manual revocation and nothing else; the revision does not go back. */
  lemma RestorationIsExact(db: Db, clockUs: int)
    ensures
      var after := RestoreTx(db, clockUs);
      && after.row.manualRevokedAt == None && after.row.revision == db.row.revision
      && Rewritten(db.row, db.row.(manualRevokedAt := None), after.row, clockUs)
      && after.link == db.link && after.ledger == db.ledger
  {
  }

  /** An unstarted trial starts at the given time; every other license stays exactly as it is. */
  lemma TrialStartIsExact(db: Db, startedAt: int, clockUs: int)
    ensures
      var after := StartTrialTx(db, startedAt, clockUs);
      if db.row.licenseType == Trial && db.row.trialStartedAt == None then
        && after.row.trialStartedAt == Some(startedAt)
        && Rewritten(db.row, db.row.(trialStartedAt := Some(startedAt)), after.row, clockUs)
        && after.link == db.link && after.ledger == db.ledger
      else after == db
  {
  }

  /** Meter changes outside an update note the active names in the draft and nothing else. */
  lemma MeterDraftIsExact(db: Db, names: set<string>, clockUs: int)
    ensures
      var after := MeterDraftTx(db, names, clockUs);
      && after.row.drafts.metered == Some(names)
      && Rewritten(db.row, db.row.(drafts := db.row.drafts.(metered := Some(names))), after.row, clockUs)
      && after.link == db.link && after.ledger == db.ledger
  {
  }

  /** A link is created only for an unlinked subscription with a paid period, which becomes the expiry. */
  lemma LinkCreationIsExact(db: Db, link: Link, clockUs: int)
    ensures
      var created := CreateLinkTx(db, link, clockUs);
      if db.row.licenseType != Subscription then created == Err(NotSubscription)
      else if link.paidThrough == None then created == Err(PeriodMissing)
      else if db.link != None then created == Err(AlreadyLinked)
      else
        && created.Ok? && created.value.link == Some(link)
        && Rewritten(db.row, db.row.(expiresAt := link.paidThrough), created.value.row, clockUs)
        && created.value.ledger == db.ledger
  {
  }

  /** A webhook writes the link and, if a period is paid, the expiry: no revision, no key, no manual revocation. */
  lemma ReconciliationIsExact(db: Db, link: Link, clockUs: int)
    ensures
      var (after, outcome) := ReconcileTx(db, link, clockUs);
      var linked := db.link.Some? && db.link.value.subscriptionId == link.subscriptionId;
      && (outcome == NotFound <==> !linked) && (outcome == NotFound ==> after == db)
      && (outcome == Deleted <==> linked && db.row.licenseType != Subscription)
      && (outcome == Deleted ==> after.link == None && after.row == db.row && after.ledger == db.ledger)
      && (outcome == Updated ==> after.link == Some(link) && after.ledger == db.ledger)
      && (outcome == Updated && link.paidThrough == None ==> after.row == db.row)
      && (outcome == Updated && link.paidThrough != None ==>
            Rewritten(db.row, db.row.(expiresAt := link.paidThrough), after.row, clockUs))
  {
  }

  /** When an update computed earlier commits. */
  ghost predicate Committable(db: Db, data: UpdateData, options: UpdateOptions)
  {
    && db.row.updatedAt == options.expectedUpdatedAt
    && ML.InsertMeters(db.ledger, options.newMeters).Some?
    && (data.licenseType == Metered ==>
          exists name :: name in ML.Active(ML.InsertMeters(db.ledger, options.newMeters).value.meters))
    && (db.link != None ==>
          if data.licenseType == Subscription then !options.manualExpiresAtUpdate else options.confirmStripeUnlink)
  }

  /**
   An update writes its type, duration, limits and drafts and a changed trial start; the expiry too,
   unless the subscription is linked. It never touches key, revision or manual revocation.
   */
  lemma UpdateIsExact(db: Db, data: UpdateData, options: UpdateOptions, clockUs: int)
    ensures UpdateTx(db, data, options, clockUs).Ok? <==> Committable(db, data, options)
    ensures UpdateTx(db, data, options, clockUs).Ok? ==>
              var after := UpdateTx(db, data, options, clockUs).value;
              var bound := data.licenseType == Subscription && db.link != None;
              && after.row.licenseType == data.licenseType && after.row.trialDuration == data.trialDuration
              && after.row.limits == data.limits
              && after.row.trialStartedAt
                 == (if data.trialStartedAt == None then db.row.trialStartedAt else data.trialStartedAt.value)
              && after.row.expiresAt == (if bound then db.row.expiresAt else data.expiresAt)
              && (!bound || db.link.value.paidThrough == None ==> after.row.drafts == data.drafts)
              && after.row.keyHash == db.row.keyHash && after.row.revision == db.row.revision
              && after.row.manualRevokedAt == db.row.manualRevokedAt
              && Rewritten(db.row, after.row, after.row, clockUs)
              && after.link == (if bound then db.link else None)
              && Some(after.ledger) == ML.InsertMeters(db.ledger, options.newMeters)
  {
    if ML.InsertMeters(db.ledger, options.newMeters).Some? {
      var active := ML.Active(ML.InsertMeters(db.ledger, options.newMeters).value.meters);
      if active != {} {
        var name :| name in active;
      }
    }
  }

  // ---------------------------------------------------------------- the admin's computation

  /** Absent fields are None; an explicit null expiry is Some(None). */
  datatype UpdateInput = UpdateInput(
    licenseType: Option<LicenseType>,
    expiresAt: Option<Option<int>>,
    trialDuration: Option<int>,
    meters: seq<ML.NewMeter>,
    limits: Option<Limits>,
    unlinkStripe: bool)

  /** The drafts with the current type's settings filled in. */
  function WithCurrentDraft(row: Row, meterNames: set<string>): Drafts
  {
    match row.licenseType
    case Subscription => row.drafts.(subscription := Some(row.expiresAt))
    case Trial => row.drafts.(trial := Some(row.trialDuration))
    case Metered => row.drafts.(metered := Some(meterNames))
    case Lifetime => row.drafts.(lifetime := true)
  }

  function ParseFuture(at: int, now: int): Result<int, Error>
  {
    if at <= now then Err(ExpiryNotFuture) else Ok(at)
  }

  function SubscriptionExpiry(row: Row, input: UpdateInput, drafts: Drafts, now: int): Result<int, Error>
  {
    if input.expiresAt == Some(None) then Err(ExpiryRequired)
    else if input.expiresAt.Some? then ParseFuture(input.expiresAt.value.value, now)
    else if row.licenseType.Subscription? then
      if row.expiresAt.Some? then Ok(row.expiresAt.value) else Err(ExpiryRequired)
    else if drafts.subscription.Some? && drafts.subscription.value.Some? then
      ParseFuture(drafts.subscription.value.value, now)
    else Err(ExpiryRequired)
  }

  function TrialDuration(row: Row, input: UpdateInput, drafts: Drafts): Result<int, Error>
  {
    var duration :=
      if input.trialDuration.Some? then input.trialDuration
      else if row.licenseType.Trial? then Some(row.trialDuration)
      else drafts.trial;
    if duration.None? then Err(DurationRequired)
    else if !(1 <= duration.value <= ML.MAX_LICENSE_LIMIT) then Err(InvalidNumber)
    else Ok(duration.value)
  }

  /** The type-specific columns of an update. */
  function TypeConfig(row: Row, input: UpdateInput, target: LicenseType, drafts: Drafts, now: int): Result<UpdateData, Error>
  {
    var changed := target != row.licenseType;
    var limits := if input.limits.Some? then input.limits.value else row.limits;
    var reset := if changed then Some(None) else None;
    match target
    case Subscription =>
      (match SubscriptionExpiry(row, input, drafts, now)
       case Err(e) => Err(e)
       case Ok(at) => Ok(UpdateData(target, 0, reset, Some(at), drafts.(subscription := Some(Some(at))), limits)))
    case Trial =>
      (match TrialDuration(row, input, drafts)
       case Err(e) => Err(e)
       case Ok(d) => Ok(UpdateData(target, d, if changed then Some(Some(now)) else None, None,
                                   drafts.(trial := Some(d)), limits)))
    case Lifetime =>
      Ok(UpdateData(target, 0, reset, None, drafts.(lifetime := true), limits))
    case Metered =>
      Ok(UpdateData(target, 0, reset, None,
                    if drafts.metered.None? then drafts.(metered := Some({})) else drafts, limits))
  }

  function Names(meters: seq<ML.NewMeter>): set<string>
  {
    set i | 0 <= i < |meters| :: meters[i].name
  }

  predicate Distinct(meters: seq<ML.NewMeter>)
  {
    forall i, j | 0 <= i < j < |meters| :: meters[i].name != meters[j].name
  }

  /** The meters among those wanted whose names are not active yet. */
  function MetersToCreate(meters: seq<ML.NewMeter>, active: set<string>): seq<ML.NewMeter>
  {
    if meters == [] then []
    else
      var rest := MetersToCreate(meters[..|meters| - 1], active);
      var m := meters[|meters| - 1];
      if m.name in active then rest else rest + [m]
  }

  predicate HasFields(input: UpdateInput)
  {
    input.licenseType.Some? || input.expiresAt.Some? || input.trialDuration.Some?
    || input.meters != [] || input.limits.Some?
  }

  function InputError(input: UpdateInput, target: LicenseType): Option<Error>
  {
    if !HasFields(input) then Some(NoFields)
    else if !target.Subscription? && input.expiresAt.Some? then Some(ExpiryNotAllowed)
    else if !target.Trial? && input.trialDuration.Some? then Some(DurationNotAllowed)
    else if !Distinct(input.meters) then Some(DuplicateMeter)
    else if exists i | 0 <= i < |input.meters| :: !ML.InRange(input.meters[i].balance) then Some(InvalidNumber)
    else if !target.Metered? && input.meters != [] then Some(MetersNotAllowed)
    else None
  }

  /**
   What `updateLicense` computes from its reads: the row, the meters and whether a link was
   found. These reads happen at different times, so nothing says they still agree.
   */
  function BuildUpdate(row: Row, meters: map<string, ML.Meter>, linked: bool, input: UpdateInput, now: int)
    : Result<(UpdateData, UpdateOptions), Error>
  {
    var target := if input.licenseType.Some? then input.licenseType.value else row.licenseType;
    var active := ML.Active(meters);
    var options := UpdateOptions(input.unlinkStripe, row.updatedAt, input.expiresAt.Some?,
                                 MetersToCreate(input.meters, active));
    match InputError(input, target)
    case Some(e) => Err(e)
    case None =>
      match TypeConfig(row, input, target, WithCurrentDraft(row, active), now)
      case Err(e) => Err(e)
      case Ok(data) =>
        if target.Metered? && (exists i | 0 <= i < |input.meters| :: ML.Clashes(meters, input.meters[i])) then
          Err(MeterExists)
        else if target.Metered? && active + Names(input.meters) == {} then Err(NoActiveMeter)
        else if linked && target.Subscription? && input.expiresAt.Some? then Err(StripeManaged)
        else if linked && !target.Subscription? && !input.unlinkStripe then Err(UnlinkNotConfirmed)
        else
          Ok((if target.Metered? then
                data.(drafts := data.drafts.(metered := Some(active + Names(input.meters))))
              else data, options))
  }

  /** What an update may ask for, given what its reads returned. */
  ghost predicate Acceptable(row: Row, meters: map<string, ML.Meter>, linked: bool, input: UpdateInput, now: int)
  {
    var target := if input.licenseType.Some? then input.licenseType.value else row.licenseType;
    && HasFields(input)
    && (input.expiresAt.Some? ==>
          target == Subscription && !linked && input.expiresAt.value.Some? && input.expiresAt.value.value > now)
    && (input.trialDuration.Some? ==> target == Trial)
    && (input.meters != [] ==> target == Metered)
    && Distinct(input.meters)
    && (forall i | 0 <= i < |input.meters| ::
          var m := input.meters[i];
          ML.InRange(m.balance) && (m.name in meters ==> meters[m.name] == ML.Meter(m.balance, false)))
    && (target == Subscription && input.expiresAt.None? ==>
          if row.licenseType == Subscription then row.expiresAt.Some?
          else row.drafts.subscription.Some? && row.drafts.subscription.value.Some?
               && row.drafts.subscription.value.value > now)
    && (target == Trial ==>
          var duration := AskedDuration(row, input);
          duration.Some? && 1 <= duration.value <= 2_147_483_647)
    && (target == Metered ==> ML.Active(meters) != {} || input.meters != [])
    && (linked && target != Subscription ==> input.unlinkStripe)
  }

  /** The duration a trial gets: the one given, else its own, else the one it had when it was last a trial. */
  function AskedDuration(row: Row, input: UpdateInput): Option<int>
  {
    if input.trialDuration.Some? then input.trialDuration
    else if row.licenseType == Trial then Some(row.trialDuration)
    else row.drafts.trial
  }

  function AskedExpiry(row: Row, input: UpdateInput): Option<int>
  {
    if input.expiresAt.Some? then input.expiresAt.value
    else if row.licenseType == Subscription then row.expiresAt
    else if row.drafts.subscription.Some? then row.drafts.subscription.value
    else None
  }

  lemma SomeWanted(meters: seq<ML.NewMeter>)
    ensures Names(meters) == {} <==> meters == []
  {
    if meters != [] {
      assert meters[0].name in Names(meters);
    }
  }

  lemma UpdateIsAcceptedIff(row: Row, meters: map<string, ML.Meter>, linked: bool, input: UpdateInput, now: int)
    ensures BuildUpdate(row, meters, linked, input, now).Ok? <==> Acceptable(row, meters, linked, input, now)
  {
    SomeWanted(input.meters);
  }

  /** An accepted update asks the transaction for exactly what the admin named, and keeps the rest. */
  lemma UpdateFollowsInput(row: Row, meters: map<string, ML.Meter>, linked: bool, input: UpdateInput, now: int)
    requires BuildUpdate(row, meters, linked, input, now).Ok?
    ensures
      var (data, options) := BuildUpdate(row, meters, linked, input, now).value;
      && data.licenseType == (if input.licenseType.Some? then input.licenseType.value else row.licenseType)
      && data.limits == (if input.limits.Some? then input.limits.value else row.limits)
      && data.expiresAt == (if data.licenseType == Subscription then AskedExpiry(row, input) else None)
      && Some(data.trialDuration) == (if data.licenseType == Trial then AskedDuration(row, input) else Some(0))
      && data.trialStartedAt
         == (if data.licenseType == row.licenseType then None
             else if data.licenseType == Trial then Some(Some(now)) else Some(None))
      && (data.licenseType == Metered ==>
            data.drafts.metered == Some(ML.Active(meters) + Names(input.meters)))
      && options.expectedUpdatedAt == row.updatedAt && options.confirmStripeUnlink == input.unlinkStripe
      && (options.manualExpiresAtUpdate <==> input.expiresAt.Some?)
      && (forall m :: m in options.newMeters <==> m in input.meters && m.name !in ML.Active(meters))
      && Distinct(options.newMeters)
  {
    NewOnes(input.meters, ML.Active(meters));
  }

  lemma {:induction false} NewOnes(meters: seq<ML.NewMeter>, active: set<string>)
    ensures forall m :: m in MetersToCreate(meters, active) <==> m in meters && m.name !in active
    ensures Distinct(meters) ==> Distinct(MetersToCreate(meters, active))
  {
    if meters != [] {
      var n := |meters| - 1;
      NewOnes(meters[..n], active);
      assert meters == meters[..n] + [meters[n]];
      if Distinct(meters) {
        assert forall i, j | 0 <= i < j < n :: meters[..n][i] == meters[i] && meters[..n][j] == meters[j];
        assert forall i | 0 <= i < n :: meters[..n][i].name != meters[n].name;
        NewOneIsDistinct(MetersToCreate(meters[..n], active), meters[..n], meters[n]);
      }
    }
  }

  lemma NewOneIsDistinct(rest: seq<ML.NewMeter>, front: seq<ML.NewMeter>, last: ML.NewMeter)
    requires Distinct(rest) && forall m | m in rest :: m in front
    requires forall i | 0 <= i < |front| :: front[i].name != last.name
    ensures Distinct(rest + [last])
  {
    forall i | 0 <= i < |rest| ensures rest[i].name != last.name {
      assert rest[i] in front;
    }
  }

  // ---------------------------------------------------------------- creation

  datatype CreateInput = CreateInput(
    licenseType: LicenseType,
    expiresAt: Option<int>,
    trialDuration: Option<int>,
    meters: seq<ML.NewMeter>,
    limits: Limits)

  /** `createTypeConfig`: the expiry, duration and first draft of a new license. */
  function CreateConfig(input: CreateInput, now: int): Result<(Option<int>, int, Drafts), Error>
  {
    var none := Drafts(false, None, None, None);
    match input.licenseType
    case Subscription =>
      if input.expiresAt.None? then Err(ExpiryRequired)
      else if input.trialDuration.Some? then Err(DurationNotAllowed)
      else if input.meters != [] then Err(MetersNotAllowed)
      else if input.expiresAt.value <= now then Err(ExpiryNotFuture)
      else Ok((input.expiresAt, 0, none.(subscription := Some(input.expiresAt))))
    case Trial =>
      var duration := if input.trialDuration.Some? then input.trialDuration.value else 0;
      if !(1 <= duration <= ML.MAX_LICENSE_LIMIT) then Err(InvalidNumber)
      else if input.expiresAt.Some? then Err(ExpiryNotAllowed)
      else if input.meters != [] then Err(MetersNotAllowed)
      else Ok((None, duration, none.(trial := Some(duration))))
    case Metered =>
      if input.meters == [] then Err(NoActiveMeter)
      else if input.expiresAt.Some? then Err(ExpiryNotAllowed)
      else if input.trialDuration.Some? then Err(DurationNotAllowed)
      else Ok((None, 0, none.(metered := Some(Names(input.meters)))))
    case Lifetime =>
      if input.expiresAt.Some? then Err(ExpiryNotAllowed)
      else if input.trialDuration.Some? then Err(DurationNotAllowed)
      else if input.meters != [] then Err(MetersNotAllowed)
      else Ok((None, 0, none.(lifetime := true)))
  }

  function CreateLicense(input: CreateInput, keyHash: string, now: int): Result<Db, Error>
  {
    if !Distinct(input.meters) then Err(DuplicateMeter)
    else if exists i | 0 <= i < |input.meters| :: !ML.InRange(input.meters[i].balance) then Err(InvalidNumber)
    else
      match CreateConfig(input, now)
      case Err(e) => Err(e)
      case Ok(config) =>
        match ML.InsertMeters(ML.EMPTY, input.meters)
        case None => Err(MeterExists)
        case Some(ledger) =>
          Ok(Db(Row(input.licenseType, config.1, None, config.0, config.2, input.limits, 0, keyHash, None, now),
                None, ledger))
  }

  /** What a new license may be asked to be. */
  ghost predicate Creatable(input: CreateInput, now: int)
  {
    && (input.expiresAt.Some? <==> input.licenseType == Subscription)
    && (input.expiresAt.Some? ==> input.expiresAt.value > now)
    && (input.trialDuration.Some? <==> input.licenseType == Trial)
    && (input.trialDuration.Some? ==> 1 <= input.trialDuration.value <= 2_147_483_647)
    && (input.meters != [] <==> input.licenseType == Metered)
    && Distinct(input.meters) && forall i | 0 <= i < |input.meters| :: ML.InRange(input.meters[i].balance)
  }

  /** A license is created if and only if its settings fit its type, and it is what was asked for: unrevoked, unstarted. */
  lemma CreationFollowsInput(input: CreateInput, keyHash: string, now: int)
    ensures CreateLicense(input, keyHash, now).Ok? <==> Creatable(input, now)
    ensures CreateLicense(input, keyHash, now).Ok? ==>
              var db := CreateLicense(input, keyHash, now).value;
              && db.row.licenseType == input.licenseType && db.row.limits == input.limits
              && db.row.expiresAt == input.expiresAt && db.row.trialStartedAt == None
              && db.row.trialDuration == (if input.trialDuration.Some? then input.trialDuration.value else 0)
              && db.row.keyHash == keyHash && db.row.revision == 0 && db.row.manualRevokedAt == None
              && db.link == None
              && (forall i | 0 <= i < |input.meters| ::
                    input.meters[i].name in db.ledger.meters
                    && db.ledger.meters[input.meters[i].name] == ML.Meter(input.meters[i].balance, false))
              && (forall name | name in db.ledger.meters :: ML.IsWanted(input.meters, name))
  {
    if Distinct(input.meters) {
      ML.InsertionIsExact(ML.EMPTY, input.meters);
      if CreateLicense(input, keyHash, now).Ok? {
        ML.InsertedMeters(ML.EMPTY, input.meters);
      }
    }
  }

  // ---------------------------------------------------------------- the tables, in place

  class LicenseTables {
    var row: Row
    var link: Option<Link>
    const meters: ML.MeterRepository

    ghost function Contents(): Db
      reads this, meters
    {
      Db(row, link, meters.Contents())
    }

    constructor (row: Row, meters: ML.MeterRepository)
      ensures Contents() == Db(row, None, meters.Contents()) && this.meters == meters
    {
      this.row, this.link, this.meters := row, None, meters;
    }

    method Update(data: UpdateData, options: UpdateOptions, clockUs: int) returns (error: Option<Error>)
      modifies this, meters
      ensures match UpdateTx(old(Contents()), data, options, clockUs)
              case Err(e) => error == Some(e) && Contents() == old(Contents())
              case Ok(db) => error == None && Contents() == db
    {
      if row.updatedAt != options.expectedUpdatedAt {
        return Some(ConcurrentChange);
      }
      var beforeMeters, beforeEntries := meters.meters, meters.entries;
      var inserted := meters.InsertNewMeters(options.newMeters);
      if !inserted {
        return Some(MeterExists);
      }
      var updateData := data;
      var failure: Option<Error> := None;
      var nextLink := link;
      if data.licenseType.Metered? && ML.Active(meters.meters) == {} {
        failure := Some(NoActiveMeter);
      } else if !data.licenseType.Subscription? {
        if link.Some? && !options.confirmStripeUnlink {
          failure := Some(UnlinkNotConfirmed);
        } else {
          nextLink := None;
        }
      } else if link.Some? {
        if options.manualExpiresAtUpdate {
          failure := Some(StripeManaged);
        } else {
          updateData := ForLinked(row, link.value, data);
        }
      }
      if failure.Some? {
        // The transaction rolls the inserted meters back.
        meters.meters, meters.entries := beforeMeters, beforeEntries;
        return failure;
      }
      link := nextLink;
      row := Stamp(Written(row, updateData), clockUs);
      return None;
    }

    method RotateKey(keyHash: string, expectedUpdatedAt: int, clockUs: int) returns (error: Option<Error>)
      modifies this
      ensures match RotateTx(old(Contents()), keyHash, expectedUpdatedAt, clockUs)
              case Err(e) => error == Some(e) && Contents() == old(Contents())
              case Ok(db) => error == None && Contents() == db
      ensures error == None ==> row.keyHash == keyHash && row.revision == old(row.revision) + 1
    {
      if row.updatedAt != expectedUpdatedAt {
        return Some(ConcurrentChange);
      }
      row := Stamp(row.(keyHash := keyHash, revision := row.revision + 1), clockUs);
      return None;
    }

    method InvalidateSessions(revokedAt: Option<int>, clockUs: int)
      modifies this
      ensures Contents() == InvalidateTx(old(Contents()), revokedAt, clockUs)
      ensures row.revision == old(row.revision) + 1 && link == old(link)
      ensures row.manualRevokedAt == if revokedAt.Some? then revokedAt else old(row.manualRevokedAt)
    {
      if revokedAt.Some? {
        row := row.(manualRevokedAt := revokedAt);
      }
      row := Stamp(row.(revision := row.revision + 1), clockUs);
    }

    method StartTrialIfUnset(startedAt: int, clockUs: int)
      modifies this
      ensures Contents() == StartTrialTx(old(Contents()), startedAt, clockUs)
    {
      if row.licenseType.Trial? && row.trialStartedAt.None? {
        row := Stamp(row.(trialStartedAt := Some(startedAt)), clockUs);
      }
    }

    method CreateLink(newLink: Link, clockUs: int) returns (error: Option<Error>)
      modifies this
      ensures match CreateLinkTx(old(Contents()), newLink, clockUs)
              case Err(e) => error == Some(e) && Contents() == old(Contents())
              case Ok(db) => error == None && Contents() == db
    {
      if !row.licenseType.Subscription? {
        return Some(NotSubscription);
      }
      if newLink.paidThrough.None? {
        return Some(PeriodMissing);
      }
      if link.Some? {
        return Some(AlreadyLinked);
      }
      link := Some(newLink);
      row := Stamp(row.(expiresAt := newLink.paidThrough), clockUs);
      return None;
    }

    method Reconcile(newLink: Link, clockUs: int) returns (outcome: Reconciled)
      modifies this
      ensures (Contents(), outcome) == ReconcileTx(old(Contents()), newLink, clockUs)
      ensures row == old(row).(expiresAt := row.expiresAt, updatedAt := row.updatedAt)
    {
      if link.None? || link.value.subscriptionId != newLink.subscriptionId {
        return NotFound;
      }
      if !row.licenseType.Subscription? {
        link := None;
        return Deleted;
      }
      link := Some(newLink);
      if newLink.paidThrough.Some? {
        row := Stamp(row.(expiresAt := newLink.paidThrough), clockUs);
      }
      return Updated;
    }

    method Unlink() returns (deleted: bool)
      modifies this
      ensures Contents() == UnlinkTx(old(Contents())) && deleted == old(link).Some?
      ensures link == None && row == old(row)
    {
      deleted := link.Some?;
      link := None;
    }
  }
}
