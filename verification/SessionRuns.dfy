/**
 Session checks in every run: a heartbeat or usage report refreshes its session in one step and
 reads the license in a later one, with anything in between.
 */
module SessionRuns {
  import opened Wrappers
  import opened SessionCodec
  import opened SessionStore
  import opened SessionIndex
  import opened LicenseStatus
  import opened Admission
  import opened Fencing
  import opened FencingRuns
  import opened AdmissionRuns

  // ---------------------------------------------------------------- refresh first, check later

  /** A refresh opens a check if and only if the session is live and the binding is its own. */
  lemma RefreshOpensIff(s: State, p: nat, token: string, binding: string, s': State)
    requires Inv(s) && Next(s, RefreshSession(p, token, binding)) == Some(s')
    ensures p in s'.requests
       <==> token in At(s.redis, s.now).keys && token in s.issued && s.issued[token].binding == binding
    ensures p in s'.requests ==>
              s'.requests[p] == Refreshed(s.issued[token].license, s.issued[token].revision, token, binding)
  {
    RefreshOpens(s, p, token, binding);
    if token in At(s.redis, s.now).keys && token in s.issued && s.issued[token].binding == binding {
      RefreshResolvesLive(s, p, token, binding);
    }
  }

  lemma OthersKeepChecks(s: State, step: Step, p: nat)
    requires Next(s, step).Some? && !RunsScript(step) && p in s.requests && s.requests[p].Refreshed?
    requires !(step.CheckSession? && step.p == p)
    ensures p in Next(s, step).value.requests && Next(s, step).value.requests[p] == s.requests[p]
  {
  }

  /** Between its refresh and its check a request stays as it is, open or not. */
  lemma CheckStays(s: State, step: Step, s': State, p: nat)
    requires Next(s, step) == Some(s') && !((step.RefreshSession? || step.CheckSession?) && step.p == p)
    ensures p in s.requests && s.requests[p].Refreshed? ==> p in s'.requests && s'.requests[p] == s.requests[p]
    ensures p in s'.requests && s'.requests[p].Refreshed? ==> p in s.requests && s.requests[p] == s'.requests[p]
  {
    if RunsScript(step) {
      ScriptFrame(s, step, p);
    } else {
      if p in s.requests && s.requests[p].Refreshed? {
        OthersKeepChecks(s, step, p);
      }
      if p in s'.requests && s'.requests[p].Refreshed? {
        OthersCheckOn(s, step, p);
      }
    }
  }

  ghost predicate Undisturbed(steps: seq<Step>, i: nat, j: nat, p: nat)
    requires j <= |steps|
  {
    forall k | i < k < j :: !((steps[k].RefreshSession? || steps[k].CheckSession?) && steps[k].p == p)
  }

  lemma {:induction false} CheckStaysOpen(states: seq<State>, steps: seq<Step>, i: nat, j: nat, p: nat)
    requires FencingRuns.Run(states, steps) && i < j < |states| && Undisturbed(steps, i, j, p)
    ensures p in states[i + 1].requests && states[i + 1].requests[p].Refreshed? ==>
              p in states[j].requests && states[j].requests[p] == states[i + 1].requests[p]
    ensures p in states[j].requests && states[j].requests[p].Refreshed? ==>
              p in states[i + 1].requests && states[i + 1].requests[p] == states[j].requests[p]
  {
    if i + 1 < j {
      var k := j - 1;
      CheckStaysOpen(states, steps, i, k, p);
      assert Next(states[k], steps[k]) == Some(states[k + 1]);
      CheckStays(states[k], steps[k], states[j], p);
    }
  }

  lemma CheckNeedsRefresh(s: State, p: nat, allowed: bool)
    requires Next(s, CheckSession(p, allowed)).Some?
    ensures p in s.requests && s.requests[p].Refreshed?
  {
  }

  /**
   From admission to heartbeat in every run. Between a refresh and its check anything may happen:
   the check takes place only if the session was live and the binding its own at the refresh, and
   it accepts if and only if at the check the license still has the revision the token was issued
   under, is active, and the allowlists let the caller in.
   */
  lemma CheckDecides(states: seq<State>, steps: seq<Step>, i: nat, j: nat, p: nat, token: string, binding: string)
    requires FencingRuns.Run(states, steps) && i < j < |steps|
    requires steps[i] == RefreshSession(p, token, binding) && steps[j].CheckSession? && steps[j].p == p
    requires Undisturbed(steps, i, j, p)
    ensures token in At(states[i].redis, states[i].now).keys && token in states[i].issued
    ensures binding == states[i].issued[token].binding
    ensures
      var issue, s := states[i].issued[token], states[j];
      Accepts(s, steps[j], token) <==>
        && issue.license in s.rows && s.rows[issue.license].revision == issue.revision
        && IsActive(s.rows[issue.license].policy, s.now) && steps[j].allowed
  {
    RunKeepsInv(states, steps, i);
    assert Next(states[i], steps[i]) == Some(states[i + 1]);
    assert Next(states[j], steps[j]) == Some(states[j + 1]);
    CheckNeedsRefresh(states[j], p, steps[j].allowed);
    CheckStaysOpen(states, steps, i, j, p);
    RefreshOpensIff(states[i], p, token, binding, states[i + 1]);
  }

  /** The service's policy decision is the machine's verdict: no revocation, no time over, and both allowlists. */
  lemma VerdictIsPolicy(s: State, license: string, revision: nat, caller: Registration)
    requires license in s.rows
    ensures
      var row := s.rows[license];
      var listed := Lists(row.allowedIps, caller.ip) && Lists(row.allowedDevices, caller.deviceId);
      && (Verdict(s, license, revision, listed) <==> row.revision == revision && PolicyError(row, caller, s.now).None?)
      && (Verdict(s, license, revision, listed) <==>
            row.revision == revision && !Revoked(row.policy) && !Ended(row.policy, s.now) && listed)
  {
    PolicyIsExact(s.rows[license], caller, s.now);
    StatusIsExact(s.rows[license].policy, s.now);
  }

  /**
   From admission to heartbeat in every run: at any later state a session check of an issued
   token succeeds if and only if its key is live, the binding is the one it was issued to, the
   license still has the revision it was issued under, no revocation is set, no time is over and
   the allowlists name the caller; otherwise the first of these that fails names the error.
   */
  lemma SessionDecidedByLicense(states: seq<State>, steps: seq<Step>, i: nat, token: string,
                                binding: string, caller: Registration)
    requires FencingRuns.Run(states, steps) && i < |states| && token in states[i].issued
    requires states[i].issued[token].license in states[i].rows
    ensures
      var s, issue := states[i], states[i].issued[token];
      var row := s.rows[issue.license];
      ChecksOut(SessionError(Refresh(s.redis, token, binding, s.now).1, issue.license, Some(row), caller, s.now),
                token in s.redis.keys && s.now < s.redis.keys[token].expiresAt
                && binding == issue.binding && row.revision == issue.revision,
                Some(row), caller, s.now)
  {
    RunKeepsInv(states, steps, i);
    var s, issue := states[i], states[i].issued[token];
    assert NotAhead(s.rows, issue);
    SessionFollowsLicense(s.redis, issue.license, issue.revision, issue.binding, token, s.now,
                          Some(s.rows[issue.license]), binding, caller);
  }

  // ---------------------------------------------------------------- who gets a session

  /**
   An activation is admitted if and only if its license still has the revision it read, is neither
   revoked nor over, lists the caller, and has slots left; it then asks for a session under the
   row's own maximum.
   */
  lemma AdmissionDecides(s: State, p: nat, allowed: bool, s': State)
    requires Next(s, Admit(p, allowed)) == Some(s')
    ensures p in s.requests && s.requests[p].Activating?
    ensures
      var r := s.requests[p];
      (p in s'.requests <==>
         && r.license in s.rows && s.rows[r.license].revision == r.revision
         && !Revoked(s.rows[r.license].policy) && !Ended(s.rows[r.license].policy, s.now) && allowed
         && !OverrunsIps(s.rows[r.license], Slots(s, r.license), r.caller)
         && !OverrunsDevices(s.rows[r.license], Slots(s, r.license), r.caller))
      && (p in s'.requests ==>
            s'.requests[p] == Admitted(r.license, r.revision, s.rows[r.license].maxSessions, r.caller, r.binding))
  {
    var r := s.requests[p];
    if r.license in s.rows {
      StatusIsExact(s.rows[r.license].policy, s.now);
      SlotErrorIsExact(s.rows[r.license], Slots(s, r.license), r.caller);
    }
  }

  lemma ReserveIssues(s: State, p: nat, token: string, s': State)
    requires Next(s, Reserve(p, token)) == Some(s')
    ensures p in s.requests && s.requests[p].Admitted? && token !in s.issued
    ensures
      var r := s.requests[p];
      token in s'.issued
      <==> Register(s.redis, r.license, r.revision, r.binding, token, r.maxSessions, s.now).1
  {
    ReserveEnds(s, p, token);
  }

  /**
   In every run an admitted activation gets its session unless its maximum is positive and at least
   that many live keys of its license carry its revision at that moment.
   */
  lemma ReservationDecides(states: seq<State>, steps: seq<Step>, i: nat, p: nat, token: string)
    requires FencingRuns.Run(states, steps) && i < |steps| && steps[i] == Reserve(p, token)
    ensures p in states[i].requests && states[i].requests[p].Admitted?
    ensures
      var s, r := states[i], states[i].requests[p];
      token in states[i + 1].issued
      <==> (r.maxSessions > 0 ==> |CurrentSessions(s.redis, r.license, r.revision, s.now)| < r.maxSessions)
  {
    RunKeepsInv(states, steps, i);
    var s := states[i];
    assert Next(s, steps[i]) == Some(states[i + 1]);
    ReserveIssues(s, p, token, states[i + 1]);
    var r := s.requests[p];
    RegisterRefusesIff(s.redis, r.license, r.revision, r.binding, token, r.maxSessions, s.now);
  }

  // ---------------------------------------------------------------- access that has ended

  /** The license is there, and its status is not active. */
  ghost predicate Inactive(s: State, license: string)
  {
    license in s.rows ==> !IsActive(s.rows[license].policy, s.now)
  }

  predicate Writes(step: Step, license: string)
  {
    (step.Edit? || step.Bump? || step.Bill?) && step.license == license
  }

  lemma OtherStepsKeepPolicy(s: State, step: Step, license: string)
    requires Next(s, step).Some? && !Writes(step, license) && license in Next(s, step).value.rows
    requires !(step.CommitActivation? && step.p in s.requests && s.requests[step.p].Reserved?
               && s.requests[step.p].license == license)
    ensures license in s.rows && Next(s, step).value.rows[license].policy == s.rows[license].policy
  {
    if !(step.CommitActivation? || step.Bump? || step.Edit? || step.Bill? || step.Delete?) {
      QuietStep(s, step);
    }
  }

  lemma CommitStepPolicy(s: State, p: nat)
    requires AdmissionInv(s) && Next(s, CommitActivation(p)).Some?
    ensures p in s.requests && s.requests[p].Reserved? && s.requests[p].license in s.rows
    ensures
      var policy := s.rows[s.requests[p].license].policy;
      var policy' := Next(s, CommitActivation(p)).value.rows[s.requests[p].license].policy;
      policy' == policy || (Unstarted(policy) && policy' == policy.(trialStartedAt := policy'.trialStartedAt))
  {
    CommitIsWhole(s, p);
  }

  lemma ClockAdvances(s: State, step: Step)
    requires Next(s, step).Some?
    ensures s.now <= Next(s, step).value.now
  {
    if RunsScript(step) {
      ScriptKeepsClock(s, step);
    }
  }

  lemma ScriptKeepsClock(s: State, step: Step)
    requires Next(s, step).Some? && RunsScript(step)
    ensures Next(s, step).value.now == s.now
  {
    match step {
      case Reserve(p, t) => ReserveEnds(s, p, t);
      case RefreshSession(p, t, binding) => RefreshStep(s, p, t, binding);
      case Deactivate(t, binding) => DeactivateStep(s, t, binding);
      case Cleanup(p, works) => CleanupEnds(s, p, works);
      case _ =>
    }
  }

  lemma InactiveStays(s: State, step: Step, s': State, license: string)
    requires AdmissionInv(s) && Next(s, step) == Some(s') && !Writes(step, license) && Inactive(s, license)
    ensures Inactive(s', license)
  {
    if license in s'.rows {
      ClockAdvances(s, step);
      NextGrows(s, step);
      var policy := s.rows[license].policy;
      AccessEndsOnce(policy, s.now, s'.now);
      if step.CommitActivation? && step.p in s.requests && s.requests[step.p].Reserved?
         && s.requests[step.p].license == license {
        CommitStepPolicy(s, step.p);
      } else {
        OtherStepsKeepPolicy(s, step, license);
      }
    }
  }

  lemma {:induction false} RunStaysInactive(states: seq<State>, steps: seq<Step>, i: nat, j: nat, license: string)
    requires FencingRuns.Run(states, steps) && i <= j < |states| && Inactive(states[i], license)
    requires forall k | i <= k < j :: !Writes(steps[k], license)
    ensures Inactive(states[j], license)
  {
    if i < j {
      var k := j - 1;
      RunStaysInactive(states, steps, i, k, license);
      RunKeepsAdmissions(states, steps, k);
      assert Next(states[k], steps[k]) == Some(states[k + 1]);
      InactiveStays(states[k], steps[k], states[j], license);
    }
  }

  /**
   Expired access does not come back by itself: once a license is not active, no check of its
   tokens accepts until an admin or its billing writes it, whatever activations are under way.
   */
  lemma ExpiredStaysRefused(states: seq<State>, steps: seq<Step>, i: nat, j: nat, token: string)
    requires FencingRuns.Run(states, steps) && i <= j < |steps| && token in states[i].issued
    requires Inactive(states[i], states[i].issued[token].license)
    requires forall k | i <= k < j :: !Writes(steps[k], states[i].issued[token].license)
    ensures !Accepts(states[j], steps[j], token)
  {
    RunStaysInactive(states, steps, i, j, states[i].issued[token].license);
    RunGrows(states, steps, i, j);
    if Accepts(states[j], steps[j], token) {
      AcceptedIsCurrent(states, steps, j, token);
    }
  }

  ghost predicate ManuallyRevoked(s: State, license: string)
  {
    license in s.rows ==> s.rows[license].policy.manualRevokedAt.Some?
  }

  lemma ManualStays(s: State, step: Step, s': State, license: string)
    requires AdmissionInv(s) && Next(s, step) == Some(s') && ManuallyRevoked(s, license)
    requires !(Writes(step, license) && !step.Bill?)
    ensures ManuallyRevoked(s', license)
  {
    if license in s'.rows && !(step.Bill? && step.license == license) {
      NextGrows(s, step);
      if step.CommitActivation? && step.p in s.requests && s.requests[step.p].Reserved?
         && s.requests[step.p].license == license {
        CommitStepPolicy(s, step.p);
      } else {
        OtherStepsKeepPolicy(s, step, license);
      }
    }
  }

  lemma {:induction false} RunStaysManual(states: seq<State>, steps: seq<Step>, i: nat, j: nat, license: string)
    requires FencingRuns.Run(states, steps) && i <= j < |states| && ManuallyRevoked(states[i], license)
    requires forall k | i <= k < j :: !(Writes(steps[k], license) && !steps[k].Bill?)
    ensures ManuallyRevoked(states[j], license)
  {
    if i < j {
      var k := j - 1;
      RunStaysManual(states, steps, i, k, license);
      RunKeepsAdmissions(states, steps, k);
      assert Next(states[k], steps[k]) == Some(states[k + 1]);
      ManualStays(states[k], steps[k], states[j], license);
    }
  }

  /** Payment recovery never lifts a manual revocation: only an admin's write to the row does. */
  lemma RevokedStaysRefused(states: seq<State>, steps: seq<Step>, i: nat, j: nat, token: string)
    requires FencingRuns.Run(states, steps) && i <= j < |steps| && token in states[i].issued
    requires ManuallyRevoked(states[i], states[i].issued[token].license)
    requires forall k | i <= k < j :: !(Writes(steps[k], states[i].issued[token].license) && !steps[k].Bill?)
    ensures !Accepts(states[j], steps[j], token)
  {
    var license := states[i].issued[token].license;
    RunStaysManual(states, steps, i, j, license);
    RunGrows(states, steps, i, j);
    if license in states[j].rows {
      RevocationsAreIndependent(states[j].rows[license].policy, states[j].now);
    }
    if Accepts(states[j], steps[j], token) {
      AcceptedIsCurrent(states, steps, j, token);
    }
  }
}
