/**
 One license record under concurrent writers: admins that read a row, compute an update and
 commit it later, key rotations, activations that start trials, billing links and meter
 changes, interleaved in any order.
 */
module LicenseRecord {
  import opened Wrappers
  import opened LicenseStatus
  import opened LicenseTx
  import ML = MeterLedger

  /** An admin request between its steps: it holds the row it once read. */
  datatype Admin =
    | Updating(seen: Row)
    | Prepared(seen: Row, data: UpdateData, options: UpdateOptions, unlinks: bool)
    | Unlinking
    | Rotating(seen: Row)

  datatype State = State(db: Db, admins: map<nat, Admin>)

  /** `meters` and `linked` are what the admin's later reads returned, whenever they ran. */
  datatype Step =
    | ReadForUpdate(p: nat)
    | Prepare(p: nat, meters: map<string, ML.Meter>, linked: bool, input: UpdateInput, now: int)
    | CommitUpdate(p: nat, clockUs: int)
    | UnlinkAfterUpdate(p: nat)
    | ReadForRotation(p: nat)
    | CommitRotation(p: nat, keyHash: string, clockUs: int)
    | Invalidate(revokedAt: Option<int>, clockUs: int)
    | Restore(clockUs: int)
    | StartTrial(startedAt: int, clockUs: int)
    | DraftMeters(names: set<string>, clockUs: int)
    | ChangeMeters(op: ML.Op)
    | CreateLink(link: Link, clockUs: int)
    | Reconcile(link: Link, clockUs: int)
    | Unlink

  function Put(s: State, p: nat, a: Admin): State
  {
    s.(admins := s.admins[p := a])
  }

  function Done(s: State, p: nat): State
  {
    s.(admins := s.admins - {p})
  }

  function AdminNext(s: State, step: Step): Option<State>
  {
    match step
    case ReadForUpdate(p) => if p in s.admins then None else Some(Put(s, p, Updating(s.db.row)))
    case Prepare(p, meters, linked, input, now) =>
      if p !in s.admins || !s.admins[p].Updating? then None
      else
        (match BuildUpdate(s.admins[p].seen, meters, linked, input, now)
         case Err(_) => Some(Done(s, p))
         case Ok(built) =>
           Some(Put(s, p, Prepared(s.admins[p].seen, built.0, built.1,
                                   linked && !built.0.licenseType.Subscription?))))
    case CommitUpdate(p, clockUs) =>
      if p !in s.admins || !s.admins[p].Prepared? then None
      else
        var a := s.admins[p];
        (match UpdateTx(s.db, a.data, a.options, clockUs)
         case Err(_) => Some(Done(s, p))
         case Ok(db) => Some((if a.unlinks then Put(s, p, Unlinking) else Done(s, p)).(db := db)))
    case UnlinkAfterUpdate(p) =>
      if p !in s.admins || !s.admins[p].Unlinking? then None else Some(Done(s, p).(db := UnlinkTx(s.db)))
    case ReadForRotation(p) => if p in s.admins then None else Some(Put(s, p, Rotating(s.db.row)))
    case CommitRotation(p, keyHash, clockUs) =>
      if p !in s.admins || !s.admins[p].Rotating? then None
      else
        (match RotateTx(s.db, keyHash, s.admins[p].seen.updatedAt, clockUs)
         case Err(_) => Some(Done(s, p))
         case Ok(db) => Some(Done(s, p).(db := db)))
    case _ => None
  }

  function DbNext(db: Db, step: Step): Option<Db>
  {
    match step
    case Invalidate(revokedAt, clockUs) => Some(InvalidateTx(db, revokedAt, clockUs))
    case Restore(clockUs) => Some(RestoreTx(db, clockUs))
    case StartTrial(startedAt, clockUs) => Some(StartTrialTx(db, startedAt, clockUs))
    case DraftMeters(names, clockUs) => Some(MeterDraftTx(db, names, clockUs))
    case ChangeMeters(op) => Some(MeterTx(db, op))
    case CreateLink(link, clockUs) =>
      (match CreateLinkTx(db, link, clockUs)
       case Err(_) => Some(db)
       case Ok(after) => Some(after))
    case Reconcile(link, clockUs) => Some(ReconcileTx(db, link, clockUs).0)
    case Unlink => Some(UnlinkTx(db))
    case _ => None
  }

  function Next(s: State, step: Step): Option<State>
  {
    match DbNext(s.db, step)
    case Some(db) => Some(s.(db := db))
    case None => AdminNext(s, step)
  }

  // ---------------------------------------------------------------- what a built update promises

  /** Type-specific columns that fit the type. */
  ghost predicate Shape(licenseType: LicenseType, duration: int, expiresAt: Option<int>, startedAt: Option<int>)
  {
    && (expiresAt.Some? <==> licenseType.Subscription?)
    && 0 <= duration <= ML.MAX_LICENSE_LIMIT && (duration > 0 <==> licenseType.Trial?)
    && (startedAt.Some? ==> licenseType.Trial?)
  }

  ghost predicate RowShape(row: Row)
  {
    Shape(row.licenseType, row.trialDuration, row.expiresAt, row.trialStartedAt)
  }

  /** The update fits the row it was computed from: its shape, its version and what it keeps dormant. */
  ghost predicate Built(row: Row, data: UpdateData, options: UpdateOptions)
  {
    && options.expectedUpdatedAt == row.updatedAt
    && Shape(data.licenseType, data.trialDuration, data.expiresAt,
             if data.trialStartedAt.Some? then data.trialStartedAt.value else row.trialStartedAt)
    && (data.trialStartedAt.Some? <==> data.licenseType != row.licenseType)
    && Dormant(row, data)
  }

  /** Leaving a type stores its settings; while it stays dormant they do not change. */
  ghost predicate Dormant(row: Row, data: UpdateData)
  {
    && (!data.licenseType.Trial? ==>
          data.drafts.trial == if row.licenseType.Trial? then Some(row.trialDuration) else row.drafts.trial)
    && (!data.licenseType.Subscription? ==>
          data.drafts.subscription == if row.licenseType.Subscription? then Some(row.expiresAt)
                                      else row.drafts.subscription)
  }

  lemma BuildUpdateFits(row: Row, meters: map<string, ML.Meter>, linked: bool, input: UpdateInput, now: int)
    requires RowShape(row) && BuildUpdate(row, meters, linked, input, now).Ok?
    ensures var built := BuildUpdate(row, meters, linked, input, now).value;
            Built(row, built.0, built.1)
  {
  }

  // ---------------------------------------------------------------- invariant

  /** A linked license is a subscription, and a known paid-through date is its expiry. */
  ghost predicate LinkAgrees(db: Db)
  {
    db.link.Some? ==>
      db.row.licenseType.Subscription?
      && (db.link.value.paidThrough.Some? ==> db.link.value.paidThrough == db.row.expiresAt)
  }

  ghost predicate HasMeter(db: Db)
  {
    db.row.licenseType.Metered? ==> ML.Active(db.ledger.meters) != {}
  }

  ghost predicate DbInv(db: Db)
  {
    RowShape(db.row) && LinkAgrees(db) && HasMeter(db)
  }

  /** A row read earlier: no newer than the stored one, and equal to it if the versions agree. */
  ghost predicate SeenBefore(seen: Row, row: Row)
  {
    seen.updatedAt <= row.updatedAt && (seen.updatedAt == row.updatedAt ==> seen == row)
  }

  ghost predicate AdminInv(a: Admin, row: Row)
  {
    match a
    case Updating(seen) => SeenBefore(seen, row) && RowShape(seen)
    case Prepared(seen, data, options, unlinks) =>
      SeenBefore(seen, row) && Built(seen, data, options) && (unlinks ==> !data.licenseType.Subscription?)
    case Unlinking => true
    case Rotating(seen) => SeenBefore(seen, row)
  }

  ghost predicate Inv(s: State)
  {
    DbInv(s.db) && forall p | p in s.admins :: AdminInv(s.admins[p], s.db.row)
  }

  ghost predicate Init(s: State)
  {
    DbInv(s.db) && s.admins == map[] && s.db.link == None
  }

  /** Either the row is untouched or its version has gone up by at least a millisecond. */
  ghost predicate Advances(before: Row, after: Row)
  {
    after == before || after.updatedAt >= before.updatedAt + 1
  }

  lemma NextAdvances(s: State, step: Step)
    requires Next(s, step).Some?
    ensures Advances(s.db.row, Next(s, step).value.db.row)
  {
  }

  lemma AnotherMember(names: set<string>, name: string)
    requires name in names && |names| != 1
    ensures exists other :: other in names && other != name
  {
    var rest := names - {name};
    assert |rest| == |names| - 1;
    assert rest != {};
    var other :| other in rest;
    assert other in names && other != name;
  }

  lemma ArchiveKeepsOne(l: ML.Ledger, name: string)
    requires ML.Active(l.meters) != {}
    ensures ML.Active(ML.ArchiveMeter(l, true, name).0.meters) != {}
  {
    var after := ML.ArchiveMeter(l, true, name).0;
    if ML.ArchiveMeter(l, true, name).1.Archived? {
      AnotherMember(ML.Active(l.meters), name);
      var other :| other in ML.Active(l.meters) && other != name;
      assert other in ML.Active(after.meters);
    }
  }

  lemma {:induction false} InsertKeepsActive(l: ML.Ledger, wanted: seq<ML.NewMeter>)
    requires ML.InsertMeters(l, wanted).Some?
    ensures ML.Active(l.meters) <= ML.Active(ML.InsertMeters(l, wanted).value.meters)
  {
    if wanted != [] {
      InsertKeepsActive(l, wanted[..|wanted| - 1]);
    }
  }

  lemma MeterOpKeepsActive(l: ML.Ledger, op: ML.Op)
    requires !op.DoArchive?
    ensures ML.Active(l.meters) <= ML.Active(ML.Apply(l, op).0.meters)
  {
    if op.DoInsert? && ML.InsertMeters(l, op.wanted).Some? {
      InsertKeepsActive(l, op.wanted);
    }
  }

  lemma MeterTxKeepsInv(db: Db, op: ML.Op)
    requires DbInv(db)
    ensures DbInv(MeterTx(db, op))
  {
    if op.DoArchive? {
      if db.row.licenseType.Metered? {
        ArchiveKeepsOne(db.ledger, op.name);
      }
    } else {
      MeterOpKeepsActive(db.ledger, op);
    }
  }

  lemma DbNextKeepsInv(db: Db, step: Step)
    requires DbInv(db) && DbNext(db, step).Some?
    ensures DbInv(DbNext(db, step).value)
  {
    if step.ChangeMeters? {
      MeterTxKeepsInv(db, step.op);
    }
  }

  lemma UpdateKeepsInv(db: Db, seen: Row, data: UpdateData, options: UpdateOptions, clockUs: int)
    requires DbInv(db) && SeenBefore(seen, db.row) && Built(seen, data, options)
    requires UpdateTx(db, data, options, clockUs).Ok?
    ensures DbInv(UpdateTx(db, data, options, clockUs).value)
  {
    assert seen == db.row;
  }

  lemma OthersStay(s: State, s': State, p: nat)
    requires Inv(s) && Advances(s.db.row, s'.db.row)
    requires forall q | q in s'.admins && q != p :: q in s.admins && s'.admins[q] == s.admins[q]
    requires p in s'.admins ==> AdminInv(s'.admins[p], s'.db.row)
    ensures forall q | q in s'.admins :: AdminInv(s'.admins[q], s'.db.row)
  {
  }

  lemma AdminNextKeepsInv(s: State, step: Step)
    requires Inv(s) && AdminNext(s, step).Some?
    ensures Inv(AdminNext(s, step).value)
  {
    var s' := AdminNext(s, step).value;
    match step {
      case Prepare(p, meters, linked, input, now) =>
        assert AdminInv(s.admins[p], s.db.row);
        if BuildUpdate(s.admins[p].seen, meters, linked, input, now).Ok? {
          BuildUpdateFits(s.admins[p].seen, meters, linked, input, now);
        }
        OthersStay(s, s', p);
      case CommitUpdate(p, clockUs) =>
        var a := s.admins[p];
        assert AdminInv(a, s.db.row);
        if UpdateTx(s.db, a.data, a.options, clockUs).Ok? {
          UpdateKeepsInv(s.db, a.seen, a.data, a.options, clockUs);
        }
        OthersStay(s, s', p);
      case ReadForUpdate(p) => OthersStay(s, s', p);
      case UnlinkAfterUpdate(p) => OthersStay(s, s', p);
      case ReadForRotation(p) => OthersStay(s, s', p);
      case CommitRotation(p, _, _) => OthersStay(s, s', p);
      case _ =>
    }
  }

  lemma NextKeepsInv(s: State, step: Step)
    requires Inv(s) && Next(s, step).Some?
    ensures Inv(Next(s, step).value)
  {
    NextAdvances(s, step);
    if DbNext(s.db, step).Some? {
      DbNextKeepsInv(s.db, step);
    } else {
      AdminNextKeepsInv(s, step);
    }
  }

  lemma StepKeepsInv(s: State, step: Step, s': State)
    requires Inv(s) && Next(s, step) == Some(s')
    ensures Inv(s')
  {
    NextKeepsInv(s, step);
  }

  // ---------------------------------------------------------------- runs

  ghost predicate Run(states: seq<State>, steps: seq<Step>)
  {
    && |states| == |steps| + 1 && Init(states[0])
    && forall i | 0 <= i < |steps| :: Next(states[i], steps[i]) == Some(states[i + 1])
  }

  /**
   In every reachable state the type-specific columns fit the type, a linked license is a
   subscription whose expiry is the link's paid-through date, and a metered license has an
   active meter.
   */
  lemma {:induction false} RunKeepsInv(states: seq<State>, steps: seq<Step>, i: nat)
    requires Run(states, steps) && i < |states|
    ensures RowShape(states[i].db.row) && LinkAgrees(states[i].db) && HasMeter(states[i].db)
    ensures forall p | p in states[i].admins :: AdminInv(states[i].admins[p], states[i].db.row)
  {
    if i > 0 {
      var k := i - 1;
      RunKeepsInv(states, steps, k);
      assert Next(states[k], steps[k]) == Some(states[k + 1]);
      StepKeepsInv(states[k], steps[k], states[i]);
    }
  }

  /** So the branch of reconcile that deletes the link of another type is never taken. */
  lemma ReconcileNeverDeletes(states: seq<State>, steps: seq<Step>, i: nat, link: Link, clockUs: int)
    requires Run(states, steps) && i < |states|
    ensures ReconcileTx(states[i].db, link, clockUs).1 != Deleted
  {
    RunKeepsInv(states, steps, i);
  }

  lemma {:induction false} RunAdvances(states: seq<State>, steps: seq<Step>, i: nat, j: nat)
    requires Run(states, steps) && i <= j < |states|
    ensures states[i].db.row.updatedAt <= states[j].db.row.updatedAt
    ensures states[i].db.row.updatedAt == states[j].db.row.updatedAt ==>
              forall k | i <= k <= j :: states[k].db.row == states[i].db.row
  {
    if i < j {
      RunAdvances(states, steps, i, j - 1);
      assert Next(states[j - 1], steps[j - 1]) == Some(states[j - 1 + 1]);
      NextAdvances(states[j - 1], steps[j - 1]);
    }
  }

  /**
   No lost updates: an update or rotation computed from the row of an earlier state passes
   the version check if and only if no write to the row has committed since.
   */
  lemma VersionCheckIsExact(states: seq<State>, steps: seq<Step>, i: nat, j: nat,
                            data: UpdateData, options: UpdateOptions, keyHash: string, clockUs: int)
    requires Run(states, steps) && i <= j < |states|
    requires options.expectedUpdatedAt == states[i].db.row.updatedAt
    ensures var untouched := forall k | i <= k <= j :: states[k].db.row == states[i].db.row;
            && (UpdateTx(states[j].db, data, options, clockUs) != Err(ConcurrentChange) <==> untouched)
            && (RotateTx(states[j].db, keyHash, states[i].db.row.updatedAt, clockUs).Ok? <==> untouched)
  {
    RunAdvances(states, steps, i, j);
  }

  /**
   Whatever the admin saw before the commit, the transaction of an update ends a Stripe link only
   by leaving the subscription type with the unlinking confirmed, and never sets the expiry of a
   linked license. The deletion that may follow it is UnlinkAfterUpdate.
   */
  lemma LinkNeedsConsent(seen: Row, meters: map<string, ML.Meter>, linked: bool, input: UpdateInput, now: int,
                         db: Db, clockUs: int)
    requires BuildUpdate(seen, meters, linked, input, now).Ok? && db.link.Some?
    requires UpdateTx(db, BuildUpdate(seen, meters, linked, input, now).value.0,
                      BuildUpdate(seen, meters, linked, input, now).value.1, clockUs).Ok?
    ensures var built := BuildUpdate(seen, meters, linked, input, now).value;
            var after := UpdateTx(db, built.0, built.1, clockUs).value;
            && input.expiresAt.None?
            && (after.link == None <==> !after.row.licenseType.Subscription?)
            && (after.link == None ==> input.unlinkStripe)
            && (after.link != None ==> after.link == db.link && after.row.expiresAt == db.row.expiresAt)
  {
  }

  // ---------------------------------------------------------------- the deletion after an update

  /** A new link is created where there was none. */
  ghost predicate Relinks(states: seq<State>, steps: seq<Step>, k: nat)
    requires |states| == |steps| + 1 && k < |steps|
  {
    steps[k].CreateLink? && states[k].db.link == None && states[k + 1].db.link.Some?
  }

  ghost predicate LinkedSince(states: seq<State>, k: nat, j: nat)
    requires j < |states|
  {
    forall m | k < m <= j :: states[m].db.link.Some?
  }

  lemma OnlyCreationLinks(s: State, step: Step, s': State)
    requires Next(s, step) == Some(s') && s.db.link == None && s'.db.link.Some?
    ensures step.CreateLink?
  {
  }

  /** From an unlinked state on, there is a link exactly if one was created and has not gone since. */
  lemma {:induction false} LinkedIffRelinked(states: seq<State>, steps: seq<Step>, i: nat, j: nat)
    requires Run(states, steps) && i <= j < |states| && states[i].db.link == None
    ensures states[j].db.link.Some?
       <==> exists k :: i <= k < j && Relinks(states, steps, k) && LinkedSince(states, k, j)
  {
    if i < j {
      var m := j - 1;
      LinkedIffRelinked(states, steps, i, m);
      assert Next(states[m], steps[m]) == Some(states[m + 1]);
      if states[j].db.link.Some? {
        if states[m].db.link == None {
          OnlyCreationLinks(states[m], steps[m], states[j]);
          assert Relinks(states, steps, m) && LinkedSince(states, m, j);
        } else {
          var k :| i <= k < m && Relinks(states, steps, k) && LinkedSince(states, k, m);
          assert LinkedSince(states, k, j);
        }
      }
    }
  }

  lemma UnlinkingCommit(s: State, p: nat, clockUs: int, s': State)
    requires Inv(s) && Next(s, CommitUpdate(p, clockUs)) == Some(s') && p in s'.admins && s'.admins[p].Unlinking?
    ensures s'.db.link == None && !s'.db.row.licenseType.Subscription?
  {
    assert AdminInv(s.admins[p], s.db.row);
  }

  /**
   An update that leaves the subscription type has removed the link when it commits, and deletes
   the license's link once more afterwards. That deletion removes a link if and only if one was
   created in between and is still there; the license is then a subscription again.
   */
  lemma TrailingDeletionIffRelinked(states: seq<State>, steps: seq<Step>, i: nat, j: nat, p: nat)
    requires Run(states, steps) && i < j < |steps| && steps[i].CommitUpdate? && steps[i].p == p
    requires p in states[i + 1].admins && states[i + 1].admins[p].Unlinking? && steps[j] == UnlinkAfterUpdate(p)
    ensures states[i + 1].db.link == None && !states[i + 1].db.row.licenseType.Subscription?
    ensures states[j + 1].db == states[j].db.(link := None)
    ensures states[j].db.link.Some?
       <==> exists k :: i < k < j && Relinks(states, steps, k) && LinkedSince(states, k, j)
    ensures states[j].db.link.Some? ==> states[j].db.row.licenseType.Subscription?
  {
    RunKeepsInv(states, steps, i);
    RunKeepsInv(states, steps, j);
    assert Next(states[i], steps[i]) == Some(states[i + 1]);
    assert Next(states[j], steps[j]) == Some(states[j + 1]);
    UnlinkingCommit(states[i], p, steps[i].clockUs, states[i + 1]);
    LinkedIffRelinked(states, steps, i + 1, j);
  }

  /** The commit of an admin's type switch, read and built from the stored row. */
  lemma SwitchSteps(s: State, p: nat, target: LicenseType, now: int, clockUs: int)
    returns (read: State, built: State, done: State, build: Step)
    requires DbInv(s.db) && p !in s.admins
    requires target.Lifetime? || (target.Subscription? && s.db.link == None && !s.db.row.licenseType.Subscription?
                                  && s.db.row.drafts.subscription.Some? && s.db.row.drafts.subscription.value.Some?
                                  && s.db.row.drafts.subscription.value.value > now)
    ensures Next(s, ReadForUpdate(p)) == Some(read) && Next(read, build) == Some(built)
    ensures Next(built, CommitUpdate(p, clockUs)) == Some(done)
    ensures done.db.row.licenseType == target && done.db.link == None
    ensures target.Lifetime? && s.db.row.licenseType.Subscription? ==>
              done.db.row.drafts.subscription == Some(s.db.row.expiresAt)
    ensures done.admins == if target.Lifetime? && s.db.link.Some? then s.admins[p := Unlinking] else s.admins
  {
    var input := SwitchTo(target, true);
    read := Put(s, p, Updating(s.db.row));
    build := Prepare(p, map[], s.db.link.Some?, input, now);
    assert BuildUpdate(s.db.row, map[], s.db.link.Some?, input, now).Ok?;
    built := Next(read, build).value;
    done := Next(built, CommitUpdate(p, clockUs)).value;
    assert s.admins[p := Updating(s.db.row)][p := built.admins[p]][p := Unlinking] == s.admins[p := Unlinking];
    assert s.admins[p := Updating(s.db.row)][p := built.admins[p]] - {p} == s.admins;
  }

  function Last(states: seq<State>): State
    requires states != []
  {
    states[|states| - 1]
  }

  lemma OneMoreStep(states: seq<State>, steps: seq<Step>, step: Step, next: State)
    requires Run(states, steps) && Next(Last(states), step) == Some(next)
    ensures Run(states + [next], steps + [step])
  {
  }

  lemma ThreeMoreSteps(states: seq<State>, steps: seq<Step>, x: Step, a: State, y: Step, b: State, z: Step, c: State)
    returns (states': seq<State>, steps': seq<Step>)
    requires Run(states, steps) && Next(Last(states), x) == Some(a) && Next(a, y) == Some(b) && Next(b, z) == Some(c)
    ensures Run(states', steps') && |steps'| == |steps| + 3 && states <= states' && Last(states') == c
  {
    OneMoreStep(states, steps, x, a);
    OneMoreStep(states + [a], steps + [x], y, b);
    OneMoreStep(states + [a] + [b], steps + [x] + [y], z, c);
    states', steps' := states + [a] + [b] + [c], steps + [x] + [y] + [z];
  }

  lemma LinkRun(states: seq<State>, steps: seq<Step>, link: Link, clockUs: int)
    returns (states': seq<State>, steps': seq<Step>)
    requires Run(states, steps) && Last(states).db.link == None && link.paidThrough.Some?
    requires Last(states).db.row.licenseType.Subscription?
    ensures Run(states', steps') && |steps'| == |steps| + 1 && states <= states'
    ensures Last(states').db.link == Some(link) && Last(states').admins == Last(states).admins
    ensures Last(states').db.row.licenseType.Subscription? && Last(states').db.row.expiresAt == link.paidThrough
  {
    var next := Next(Last(states), CreateLink(link, clockUs)).value;
    OneMoreStep(states, steps, CreateLink(link, clockUs), next);
    states', steps' := states + [next], steps + [CreateLink(link, clockUs)];
  }

  lemma SwitchRun(states: seq<State>, steps: seq<Step>, p: nat, target: LicenseType, now: int, clockUs: int)
    returns (states': seq<State>, steps': seq<Step>)
    requires Run(states, steps) && p !in Last(states).admins && DbInv(Last(states).db)
    requires target.Lifetime? || (target.Subscription? && Last(states).db.link == None
                                  && ExpirySetting(Last(states).db.row).Some?
                                  && !Last(states).db.row.licenseType.Subscription?
                                  && ExpirySetting(Last(states).db.row).value.Some?
                                  && ExpirySetting(Last(states).db.row).value.value > now)
    ensures Run(states', steps') && |steps'| == |steps| + 3 && states <= states'
    ensures Last(states').db.row.licenseType == target && Last(states').db.link == None
    ensures target.Lifetime? ==> ExpirySetting(Last(states').db.row) == ExpirySetting(Last(states).db.row)
    ensures Last(states').admins
         == if target.Lifetime? && Last(states).db.link.Some? then Last(states).admins[p := Unlinking] else Last(states).admins
  {
    var read, built, done, build := SwitchSteps(Last(states), p, target, now, clockUs);
    states', steps' := ThreeMoreSteps(states, steps, ReadForUpdate(p), read, build, built, CommitUpdate(p, clockUs), done);
  }

  /**
   It happens: a license leaves the subscription type, another admin brings it back, it is linked
   again, and the first update's deletion removes the new link, which nobody asked to remove.
   */
  lemma NewLinkIsRemoved(db: Db, first: Link, second: Link, now: int, clockUs: int)
    requires DbInv(db) && db.row.licenseType.Subscription? && db.link == None
    requires first.paidThrough.Some? && first.paidThrough.value > now && second.paidThrough.Some?
    ensures exists states: seq<State>, steps: seq<Step> ::
              && Run(states, steps) && |steps| == 9 && states[0].db == db && steps[8] == UnlinkAfterUpdate(0)
              && states[8].db.link == Some(second) && states[9].db.link == None
              && states[9].db.row.licenseType.Subscription?
  {
    var states, steps: seq<Step> := [State(db, map[])], [];
    states, steps := LinkRun(states, steps, first, clockUs);
    RunKeepsInv(states, steps, |states| - 1);
    states, steps := SwitchRun(states, steps, 0, Lifetime, now, clockUs);
    RunKeepsInv(states, steps, |states| - 1);
    states, steps := SwitchRun(states, steps, 1, Subscription, now, clockUs);
    states, steps := LinkRun(states, steps, second, clockUs);
    var removed := Done(Last(states), 0).(db := UnlinkTx(Last(states).db));
    OneMoreStep(states, steps, UnlinkAfterUpdate(0), removed);
    states, steps := states + [removed], steps + [UnlinkAfterUpdate(0)];
  }

  // ---------------------------------------------------------------- trials

  lemma TrialStartStays(s: State, step: Step)
    requires Inv(s) && Next(s, step).Some?
    requires s.db.row.licenseType.Trial? && Next(s, step).value.db.row.licenseType.Trial?
    requires s.db.row.trialStartedAt.Some?
    ensures Next(s, step).value.db.row.trialStartedAt == s.db.row.trialStartedAt
  {
    if step.CommitUpdate? {
      assert AdminInv(s.admins[step.p], s.db.row);
    }
  }

  /** A trial starts at most once while the license stays a trial. */
  lemma {:induction false} TrialStartsOnce(states: seq<State>, steps: seq<Step>, i: nat, j: nat)
    requires Run(states, steps) && i <= j < |states|
    requires forall k | i <= k <= j :: states[k].db.row.licenseType.Trial?
    requires states[i].db.row.trialStartedAt.Some?
    ensures states[j].db.row.trialStartedAt == states[i].db.row.trialStartedAt
  {
    if i < j {
      var k := j - 1;
      TrialStartsOnce(states, steps, i, k);
      RunKeepsInv(states, steps, k);
      assert Next(states[k], steps[k]) == Some(states[k + 1]);
      TrialStartStays(states[k], steps[k]);
    }
  }

  // ---------------------------------------------------------------- switching back

  /** What a type would come back with: its settings now, or its draft. */
  function TrialSetting(row: Row): Option<int>
  {
    if row.licenseType.Trial? then Some(row.trialDuration) else row.drafts.trial
  }

  function ExpirySetting(row: Row): Option<Option<int>>
  {
    if row.licenseType.Subscription? then Some(row.expiresAt) else row.drafts.subscription
  }

  lemma SettingsStay(s: State, step: Step)
    requires Inv(s) && Next(s, step).Some?
    ensures var after := Next(s, step).value.db.row;
            && (!after.licenseType.Trial? ==> TrialSetting(after) == TrialSetting(s.db.row))
            && (!after.licenseType.Subscription? ==> ExpirySetting(after) == ExpirySetting(s.db.row))
  {
    if step.CommitUpdate? {
      assert AdminInv(s.admins[step.p], s.db.row);
    }
  }

  lemma {:induction false} TrialSettingKept(states: seq<State>, steps: seq<Step>, i: nat, j: nat)
    requires Run(states, steps) && i <= j < |states|
    requires forall k | i < k <= j :: !states[k].db.row.licenseType.Trial?
    ensures TrialSetting(states[j].db.row) == TrialSetting(states[i].db.row)
  {
    if i < j {
      var k := j - 1;
      TrialSettingKept(states, steps, i, k);
      RunKeepsInv(states, steps, k);
      assert Next(states[k], steps[k]) == Some(states[k + 1]);
      SettingsStay(states[k], steps[k]);
    }
  }

  lemma {:induction false} ExpirySettingKept(states: seq<State>, steps: seq<Step>, i: nat, j: nat)
    requires Run(states, steps) && i <= j < |states|
    requires forall k | i < k <= j :: !states[k].db.row.licenseType.Subscription?
    ensures ExpirySetting(states[j].db.row) == ExpirySetting(states[i].db.row)
  {
    if i < j {
      var k := j - 1;
      ExpirySettingKept(states, steps, i, k);
      RunKeepsInv(states, steps, k);
      assert Next(states[k], steps[k]) == Some(states[k + 1]);
      SettingsStay(states[k], steps[k]);
    }
  }

  /** An update that names only a target type. */
  function SwitchTo(target: LicenseType, unlinkStripe: bool): UpdateInput
  {
    UpdateInput(Some(target), None, None, [], None, unlinkStripe)
  }

  /**
   A license that left the trial type and went through any other types comes back to exactly
   its old duration, with a fresh start, whatever the interleaving in between; the update is
   refused only for want of a confirmed unlinking.
   */
  lemma TrialComesBack(states: seq<State>, steps: seq<Step>, i: nat, j: nat, meters: map<string, ML.Meter>,
                       linked: bool, unlinkStripe: bool, now: int, clockUs: int)
    requires Run(states, steps) && i < j < |states|
    requires states[i].db.row.licenseType.Trial?
    requires forall k | i < k <= j :: !states[k].db.row.licenseType.Trial?
    ensures var back := BuildUpdate(states[j].db.row, meters, linked, SwitchTo(Trial, unlinkStripe), now);
            if linked && !unlinkStripe then back == Err(UnlinkNotConfirmed)
            else
              && back.Ok?
              && var done := UpdateTx(states[j].db, back.value.0, back.value.1, clockUs);
                 if states[j].db.link.Some? && !unlinkStripe then done == Err(UnlinkNotConfirmed)
                 else done.Ok? && done.value.row.licenseType.Trial?
                      && done.value.row.trialDuration == states[i].db.row.trialDuration
                      && done.value.row.trialStartedAt == Some(now)
  {
    RunKeepsInv(states, steps, i);
    TrialSettingKept(states, steps, i, j);
  }

  /** A subscription comes back with its old expiry, committed, if and only if that is still in the future. */
  lemma SubscriptionComesBack(states: seq<State>, steps: seq<Step>, i: nat, j: nat, meters: map<string, ML.Meter>,
                              linked: bool, unlinkStripe: bool, now: int, clockUs: int)
    requires Run(states, steps) && i < j < |states|
    requires states[i].db.row.licenseType.Subscription?
    requires forall k | i < k <= j :: !states[k].db.row.licenseType.Subscription?
    ensures states[i].db.row.expiresAt.Some?
    ensures var back := BuildUpdate(states[j].db.row, meters, linked, SwitchTo(Subscription, unlinkStripe), now);
            if states[i].db.row.expiresAt.value <= now then back == Err(ExpiryNotFuture)
            else
              && back.Ok?
              && var done := UpdateTx(states[j].db, back.value.0, back.value.1, clockUs);
                 done.Ok? && done.value.row.licenseType.Subscription?
                 && done.value.row.expiresAt == states[i].db.row.expiresAt
  {
    RunKeepsInv(states, steps, i);
    RunKeepsInv(states, steps, j);
    ExpirySettingKept(states, steps, i, j);
  }

  /** Only archiving takes an active meter away; no update, whatever its type, does. */
  lemma MetersStayActive(s: State, step: Step)
    requires Next(s, step).Some? && !(step.ChangeMeters? && step.op.DoArchive?)
    ensures ML.Active(s.db.ledger.meters) <= ML.Active(Next(s, step).value.db.ledger.meters)
  {
    match step {
      case ChangeMeters(op) => MeterOpKeepsActive(s.db.ledger, op);
      case CommitUpdate(p, clockUs) =>
        if ML.InsertMeters(s.db.ledger, s.admins[p].options.newMeters).Some? {
          InsertKeepsActive(s.db.ledger, s.admins[p].options.newMeters);
        }
      case _ =>
    }
  }

  lemma {:induction false} MetersKept(states: seq<State>, steps: seq<Step>, i: nat, j: nat)
    requires Run(states, steps) && i <= j < |states|
    requires forall k | i <= k < j :: !(steps[k].ChangeMeters? && steps[k].op.DoArchive?)
    ensures ML.Active(states[i].db.ledger.meters) <= ML.Active(states[j].db.ledger.meters)
  {
    if i < j {
      var k := j - 1;
      MetersKept(states, steps, i, k);
      assert Next(states[k], steps[k]) == Some(states[k + 1]);
      MetersStayActive(states[k], steps[k]);
    }
  }

  lemma SwitchToMetered(row: Row, meters: map<string, ML.Meter>, linked: bool, unlinkStripe: bool, now: int)
    requires !row.licenseType.Metered?
    ensures var back := BuildUpdate(row, meters, linked, SwitchTo(Metered, unlinkStripe), now);
            && (back.Ok? <==> ML.Active(meters) != {} && (linked ==> unlinkStripe))
            && (back.Ok? ==> back.value.0.drafts.metered == Some(ML.Active(meters)) && back.value.1.newMeters == [])
  {
    var none: seq<ML.NewMeter> := [];
    assert Names(none) == {};
    assert ML.Active(meters) + Names(none) == ML.Active(meters);
  }

  /**
   A metered license comes back with every meter that was active, as long as none was archived.
   The service reads the row at a, the meters at b and the link at c, and commits at d; it is
   refused only if the row was written since a or a link is not confirmed to be removed.
   */
  lemma MeteredComesBack(states: seq<State>, steps: seq<Step>, i: nat, a: nat, b: nat, c: nat, d: nat,
                         unlinkStripe: bool, now: int, clockUs: int)
    requires Run(states, steps) && i < a <= b <= c <= d < |states|
    requires states[i].db.row.licenseType.Metered? && !states[a].db.row.licenseType.Metered?
    requires forall k | i <= k < d :: !(steps[k].ChangeMeters? && steps[k].op.DoArchive?)
    ensures var meters, linked := states[b].db.ledger.meters, states[c].db.link.Some?;
            var back := BuildUpdate(states[a].db.row, meters, linked, SwitchTo(Metered, unlinkStripe), now);
            if linked && !unlinkStripe then back == Err(UnlinkNotConfirmed)
            else
              && back.Ok?
              && var done := UpdateTx(states[d].db, back.value.0, back.value.1, clockUs);
                 if states[d].db.row.updatedAt != states[a].db.row.updatedAt then done == Err(ConcurrentChange)
                 else if states[d].db.link.Some? && !unlinkStripe then done == Err(UnlinkNotConfirmed)
                 else done.Ok? && done.value.row.licenseType.Metered?
                      && done.value.row.drafts.metered == Some(ML.Active(meters))
                      && ML.Active(states[i].db.ledger.meters) <= ML.Active(meters)
                      && ML.Active(meters) <= ML.Active(done.value.ledger.meters)
  {
    RunKeepsInv(states, steps, i);
    MetersKept(states, steps, i, b);
    MetersKept(states, steps, b, d);
    SwitchToMetered(states[a].db.row, states[b].db.ledger.meters, states[c].db.link.Some?, unlinkStripe, now);
    var some :| some in ML.Active(states[i].db.ledger.meters);
    assert some in ML.Active(states[b].db.ledger.meters) && some in ML.Active(states[d].db.ledger.meters);
  }

  // ---------------------------------------------------------------- who writes which column

  /** The step commits an invalidation, or a rotation whose row is still the one that was read. */
  ghost predicate RaisesRevision(s: State, step: Step)
  {
    match step
    case Invalidate(_, _) => true
    case CommitRotation(p, _, _) =>
      p in s.admins && s.admins[p].Rotating? && s.admins[p].seen.updatedAt == s.db.row.updatedAt
    case _ => false
  }

  /** Each column has its writers; whatever else runs leaves it alone. */
  lemma ColumnWriters(s: State, step: Step, s': State)
    requires Next(s, step) == Some(s')
    ensures s'.db.row.revision == s.db.row.revision + (if RaisesRevision(s, step) then 1 else 0)
    ensures s'.db.row.manualRevokedAt
         == (if step.Restore? then None
             else if step.Invalidate? && step.revokedAt.Some? then step.revokedAt
             else s.db.row.manualRevokedAt)
    ensures s'.db.row.keyHash
         == if step.CommitRotation? && RaisesRevision(s, step) then step.keyHash else s.db.row.keyHash
    ensures !step.CommitUpdate? ==>
              && s'.db.row.licenseType == s.db.row.licenseType && s'.db.row.limits == s.db.row.limits
              && s'.db.row.trialDuration == s.db.row.trialDuration
              && (!step.StartTrial? ==> s'.db.row.trialStartedAt == s.db.row.trialStartedAt)
              && (!step.CreateLink? && !step.Reconcile? ==> s'.db.row.expiresAt == s.db.row.expiresAt)
              && (!step.DraftMeters? ==> s'.db.row.drafts == s.db.row.drafts)
  {
  }

  /** The committed invalidations and rotations between two states of a run. */
  ghost function Raises(states: seq<State>, steps: seq<Step>, i: nat, j: nat): nat
    requires |states| == |steps| + 1 && i <= j < |states|
  {
    if i == j then 0
    else Raises(states, steps, i, j - 1) + (if RaisesRevision(states[j - 1], steps[j - 1]) then 1 else 0)
  }

  /** The revision rises by exactly the number of committed invalidations and rotations. */
  lemma {:induction false} RevisionCounts(states: seq<State>, steps: seq<Step>, i: nat, j: nat)
    requires Run(states, steps) && i <= j < |states|
    ensures states[j].db.row.revision == states[i].db.row.revision + Raises(states, steps, i, j)
  {
    if i < j {
      var k := j - 1;
      RevisionCounts(states, steps, i, k);
      assert Next(states[k], steps[k]) == Some(states[k + 1]);
      ColumnWriters(states[k], steps[k], states[j]);
    }
  }

  /** What the admins' revocations and restorations among these steps leave behind. */
  function RevocationAfter(start: Option<int>, steps: seq<Step>): Option<int>
  {
    if steps == [] then start
    else
      var last := steps[|steps| - 1];
      if last.Restore? then None
      else if last.Invalidate? && last.revokedAt.Some? then last.revokedAt
      else RevocationAfter(start, steps[..|steps| - 1])
  }

  /** Only revoking and restoring write the manual revocation, whatever reconciles, links and updates come between. */
  lemma {:induction false} RevocationFollowsAdmins(states: seq<State>, steps: seq<Step>, i: nat)
    requires Run(states, steps) && i < |states|
    ensures states[i].db.row.manualRevokedAt == RevocationAfter(states[0].db.row.manualRevokedAt, steps[..i])
  {
    if i > 0 {
      var k := i - 1;
      RevocationFollowsAdmins(states, steps, k);
      assert Next(states[k], steps[k]) == Some(states[k + 1]);
      ColumnWriters(states[k], steps[k], states[i]);
      assert steps[..i][..k] == steps[..k];
    }
  }

  /** A manual revocation stands until a restoration or another revocation. */
  lemma {:induction false} RevocationStands(states: seq<State>, steps: seq<Step>, i: nat, j: nat)
    requires Run(states, steps) && i <= j < |states|
    requires forall k | i <= k < j :: !steps[k].Restore? && !(steps[k].Invalidate? && steps[k].revokedAt.Some?)
    ensures states[j].db.row.manualRevokedAt == states[i].db.row.manualRevokedAt
  {
    if i < j {
      var k := j - 1;
      RevocationStands(states, steps, i, k);
      assert Next(states[k], steps[k]) == Some(states[k + 1]);
      ColumnWriters(states[k], steps[k], states[j]);
    }
  }

  /** The hash of the last rotation that committed. */
  ghost function KeyAfter(states: seq<State>, steps: seq<Step>, i: nat): string
    requires |states| == |steps| + 1 && i < |states|
  {
    if i == 0 then states[0].db.row.keyHash
    else if steps[i - 1].CommitRotation? && RaisesRevision(states[i - 1], steps[i - 1]) then steps[i - 1].keyHash
    else KeyAfter(states, steps, i - 1)
  }

  lemma {:induction false} KeyIsLastRotated(states: seq<State>, steps: seq<Step>, i: nat)
    requires Run(states, steps) && i < |states|
    ensures states[i].db.row.keyHash == KeyAfter(states, steps, i)
  {
    if i > 0 {
      var k := i - 1;
      KeyIsLastRotated(states, steps, k);
      assert Next(states[k], steps[k]) == Some(states[k + 1]);
      ColumnWriters(states[k], steps[k], states[i]);
    }
  }

  /**
   An update computed from the row of an earlier state, with meters and link read at any other
   states, commits only if that row is untouched; the committed row is then the current one with
   what the admin named: type, limits, duration and, unless it is linked, expiry. Key, revision
   and manual revocation stay.
   */
  lemma CommittedUpdateFollowsInput(states: seq<State>, steps: seq<Step>, i: nat, j: nat,
                                    meters: map<string, ML.Meter>, linked: bool, input: UpdateInput, now: int,
                                    clockUs: int)
    requires Run(states, steps) && i <= j < |states|
    requires BuildUpdate(states[i].db.row, meters, linked, input, now).Ok?
    requires UpdateTx(states[j].db, BuildUpdate(states[i].db.row, meters, linked, input, now).value.0,
                      BuildUpdate(states[i].db.row, meters, linked, input, now).value.1, clockUs).Ok?
    ensures
      var built := BuildUpdate(states[i].db.row, meters, linked, input, now).value;
      var before, after := states[j].db.row, UpdateTx(states[j].db, built.0, built.1, clockUs).value;
      var target := if input.licenseType.Some? then input.licenseType.value else before.licenseType;
      && before == states[i].db.row
      && after.row.licenseType == target
      && after.row.limits == (if input.limits.Some? then input.limits.value else before.limits)
      && Some(after.row.trialDuration) == (if target == Trial then AskedDuration(before, input) else Some(0))
      && after.row.trialStartedAt
         == (if target == before.licenseType then before.trialStartedAt
             else if target == Trial then Some(now) else None)
      && after.row.expiresAt
         == (if target != Subscription then None
             else if states[j].db.link.Some? then before.expiresAt else AskedExpiry(before, input))
      && after.row.keyHash == before.keyHash && after.row.revision == before.revision
      && after.row.manualRevokedAt == before.manualRevokedAt && after.row.updatedAt > before.updatedAt
  {
    var built := BuildUpdate(states[i].db.row, meters, linked, input, now).value;
    UpdateFollowsInput(states[i].db.row, meters, linked, input, now);
    UpdateIsExact(states[j].db, built.0, built.1, clockUs);
    RunAdvances(states, steps, i, j);
  }

  // ---------------------------------------------------------------- creation

  /** A created license is a valid start of every run. */
  lemma CreatedLicenseStarts(input: CreateInput, keyHash: string, now: int)
    requires CreateLicense(input, keyHash, now).Ok?
    ensures Init(State(CreateLicense(input, keyHash, now).value, map[]))
  {
    if input.licenseType.Metered? {
      InsertAddsLast(ML.EMPTY, input.meters);
    }
  }

  lemma InsertAddsLast(l: ML.Ledger, wanted: seq<ML.NewMeter>)
    requires wanted != [] && ML.InsertMeters(l, wanted).Some?
    ensures wanted[|wanted| - 1].name in ML.Active(ML.InsertMeters(l, wanted).value.meters)
  {
  }
}
