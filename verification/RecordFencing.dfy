/**
 The license record inside the fencing machine: what its transactions do to the columns that
 admission and session checks read is a bump, an edit or a billing step of that machine.
 */
module RecordFencing {
  import opened Wrappers
  import opened LicenseStatus
  import opened LicenseTx
  import opened Admission
  import F = Fencing
  import LR = LicenseRecord

  /** The row as admission and session checks read it, with the billing revocation of its link. */
  function View(db: Db, ips: set<string>, devices: set<string>): License
  {
    var row := db.row;
    License(row.revision,
            Policy(row.licenseType, row.expiresAt, row.trialDuration, row.trialStartedAt, row.manualRevokedAt,
                   if db.link.Some? then db.link.value.billingRevokedAt else None),
            row.limits.maxIps, row.limits.maxDevices, row.limits.maxSessions, ips, devices)
  }

  ghost predicate Shows(f: F.State, license: string, db: Db, ips: set<string>, devices: set<string>)
  {
    license in f.rows && f.rows[license] == View(db, ips, devices)
  }

  /** The machine's step for a step of the record. */
  ghost function Fenced(s: LR.State, step: LR.Step, s': LR.State, license: string, ips: set<string>,
                        devices: set<string>, p: nat, kept: set<Registration>): F.Step
  {
    var view := View(s'.db, ips, devices);
    if LR.RaisesRevision(s, step) then F.Bump(p, license, view.policy, kept)
    else if s'.db.row == s.db.row then F.Bill(license, view.policy.billingRevokedAt)
    else F.Edit(license, view)
  }

  /** What a step of the record does to the view: a bump, a billing change, or a write that keeps the revision. */
  lemma RecordStepView(s: LR.State, step: LR.Step, s': LR.State, ips: set<string>, devices: set<string>)
    requires LR.Next(s, step) == Some(s')
    ensures
      var before, after := View(s.db, ips, devices), View(s'.db, ips, devices);
      if LR.RaisesRevision(s, step) then after == before.(revision := before.revision + 1, policy := after.policy)
      else if s'.db.row == s.db.row then
        after == before.(policy := before.policy.(billingRevokedAt := after.policy.billingRevokedAt))
      else after.revision == before.revision
  {
    LR.ColumnWriters(s, step, s');
    if LR.RaisesRevision(s, step) {
      RaisesKeepView(s, step, s', ips, devices);
    }
  }

  lemma RaisesKeepView(s: LR.State, step: LR.Step, s': LR.State, ips: set<string>, devices: set<string>)
    requires LR.Next(s, step) == Some(s') && LR.RaisesRevision(s, step)
    ensures s'.db.link == s.db.link && s'.db.row.limits == s.db.row.limits
  {
  }

  lemma FencedBump(f: F.State, license: string, view: License, p: nat, kept: set<Registration>)
    requires license in f.rows && license !in f.locks && p !in f.requests
    requires f.rows[license].revision < F.MAX_REVISION
    requires view == f.rows[license].(revision := f.rows[license].revision + 1, policy := view.policy)
    ensures
      var next := F.Next(f, F.Bump(p, license, view.policy, kept));
      next.Some? && next.value.rows == f.rows[license := view]
      && next.value.redis == f.redis && next.value.now == f.now && next.value.issued == f.issued
  {
  }

  lemma FencedEdit(f: F.State, license: string, view: License)
    requires license in f.rows && license !in f.locks && view.revision == f.rows[license].revision
    ensures F.Next(f, F.Edit(license, view)) == Some(f.(rows := f.rows[license := view]))
  {
    assert view.(revision := f.rows[license].revision) == view;
  }

  lemma FencedBill(f: F.State, license: string, view: License)
    requires license in f.rows
    requires view == f.rows[license].(policy :=
                       f.rows[license].policy.(billingRevokedAt := view.policy.billingRevokedAt))
    ensures F.Next(f, F.Bill(license, view.policy.billingRevokedAt)) == Some(f.(rows := f.rows[license := view]))
  {
  }

  /**
   Every step of the record is a step of the fencing machine on this license: a bump exactly when it
   commits an invalidation or a rotation, a billing step when it leaves the row alone, and an edit
   otherwise. Only steps that write the row need it unlocked.
   */
  lemma RecordStepIsFencingStep(s: LR.State, step: LR.Step, s': LR.State, f: F.State, license: string,
                                ips: set<string>, devices: set<string>, p: nat, kept: set<Registration>)
    requires LR.Next(s, step) == Some(s') && Shows(f, license, s.db, ips, devices)
    requires s'.db.row != s.db.row ==> license !in f.locks
    requires LR.RaisesRevision(s, step) ==> p !in f.requests && s.db.row.revision < F.MAX_REVISION
    ensures
      var next := F.Next(f, Fenced(s, step, s', license, ips, devices, p, kept));
      && next.Some? && next.value.rows == f.rows[license := View(s'.db, ips, devices)]
      && next.value.redis == f.redis && next.value.now == f.now && next.value.issued == f.issued
  {
    var view := View(s'.db, ips, devices);
    RecordStepView(s, step, s', ips, devices);
    if LR.RaisesRevision(s, step) {
      assert s'.db.row.revision != s.db.row.revision;
      FencedBump(f, license, view, p, kept);
    } else if s'.db.row == s.db.row {
      FencedBill(f, license, view);
    } else {
      FencedEdit(f, license, view);
    }
  }

  /**
   A session admitted under the record of one state of a run passes the check in a later state if and
   only if no invalidation and no rotation has committed in between, the admins' last word is not a
   revocation, billing has not revoked, the license's time is not over, and the lists name the caller.
   */
  lemma SessionOutlivesWritesIff(states: seq<LR.State>, steps: seq<LR.Step>, i: nat, j: nat, f: F.State,
                                 license: string, ips: set<string>, devices: set<string>, listed: bool)
    requires LR.Run(states, steps) && i <= j < |states| && Shows(f, license, states[j].db, ips, devices)
    ensures
      var db := states[j].db;
      F.Verdict(f, license, states[i].db.row.revision, listed) <==>
        && LR.Raises(states, steps, i, j) == 0
        && LR.RevocationAfter(states[0].db.row.manualRevokedAt, steps[..j]) == None
        && (db.link.Some? ==> db.link.value.billingRevokedAt == None)
        && !Ended(View(db, ips, devices).policy, f.now) && listed
  {
    LR.RevisionCounts(states, steps, i, j);
    LR.RevocationFollowsAdmins(states, steps, j);
    StatusIsExact(f.rows[license].policy, f.now);
  }
}
