/**
 Activations as transactions among everything else that runs: which tokens are committed and
 which of them clients receive, which registrations and trial starts are written, how many slots
 are taken, and what becomes of a session whose activation fails.
 */
module AdmissionRuns {
  import opened Wrappers
  import opened SessionCodec
  import opened SessionStore
  import opened SessionIndex
  import opened LicenseStatus
  import opened Admission
  import opened Fencing
  import opened FencingRuns

  // ---------------------------------------------------------------- what an open transaction relies on

  /** Only the billing revocation may have changed. */
  ghost predicate BilledOnly(row: License, row': License)
  {
    row' == row.(policy := row.policy.(billingRevokedAt := row'.policy.billingRevokedAt))
  }

  predicate HasRow(r: Request)
  {
    r.Admitted? || r.Reserved?
  }

  /** There is still room for the caller, and a trial start is pending exactly if the trial has none. */
  ghost predicate Ready(s: State, r: Request)
  {
    HasRow(r) ==>
      && r.license in s.rows
      && SlotError(s.rows[r.license], Slots(s, r.license), r.caller).None?
      && (r.Reserved? && !r.writes.NoWrites? ==> (r.writes.startedAt.Some? <==> Unstarted(s.rows[r.license].policy)))
  }

  ghost predicate ReadyInv(s: State)
  {
    forall p | p in s.requests :: Ready(s, s.requests[p])
  }

  /** The request holds this token on its client's behalf, before or after its commit. */
  ghost predicate Carries(s: State, p: nat, token: string)
  {
    p in s.requests && (s.requests[p].Reserved? || s.requests[p].Answering?) && s.requests[p].token == token
  }

  /** No request carries a token that is returned or lost, or another one's. */
  ghost predicate TokensApart(s: State)
  {
    && s.returned <= s.issued.Keys && s.lost <= s.issued.Keys
    && (forall p, t | Carries(s, p, t) :: t !in s.returned && t !in s.lost)
    && (forall p, q, t | Carries(s, p, t) && Carries(s, q, t) :: p == q)
  }

  ghost predicate AdmissionInv(s: State)
  {
    Inv(s) && ReadyInv(s) && TokensApart(s)
  }

  lemma SlotsIgnorePolicy(row: License, row': License, registered: set<Registration>, caller: Registration)
    requires row'.maxIps == row.maxIps && row'.maxDevices == row.maxDevices
    ensures SlotError(row', registered, caller) == SlotError(row, registered, caller)
  {
  }

  lemma QuietActivation(s: State, step: Step)
    requires NextActivation(s, step).Some? && !step.Reserve?
    ensures NextActivation(s, step).value.rows == s.rows && NextActivation(s, step).value.slots == s.slots
  {
  }

  lemma QuietSession(s: State, step: Step)
    requires NextSession(s, step).Some? && !step.RefreshSession?
    ensures NextSession(s, step).value.rows == s.rows && NextSession(s, step).value.slots == s.slots
  {
  }

  lemma QuietStep(s: State, step: Step)
    requires Next(s, step).Some?
    requires !(step.CommitActivation? || step.Bump? || step.Edit? || step.Bill? || step.Delete?)
    ensures Next(s, step).value.rows == s.rows && Next(s, step).value.slots == s.slots
  {
    match step {
      case Reserve(p, token) => ReserveEnds(s, p, token);
      case RefreshSession(p, t, binding) => RefreshStep(s, p, t, binding);
      case StartActivation(_, _, _, _) => QuietActivation(s, step);
      case Admit(_, _) => QuietActivation(s, step);
      case CheckSession(_, _) => QuietSession(s, step);
      case Deactivate(_, _) => QuietSession(s, step);
      case _ =>
    }
  }

  lemma AdminWriteStep(s: State, step: Step, license: string)
    requires Next(s, step).Some? && license in s.rows && license in s.locks
    requires step.Bump? || step.Edit? || step.Bill? || step.Delete?
    ensures
      var s' := Next(s, step).value;
      license in s'.rows && BilledOnly(s.rows[license], s'.rows[license]) && Slots(s', license) == Slots(s, license)
  {
  }

  lemma CommitStep(s: State, p: nat, license: string)
    requires Next(s, CommitActivation(p)).Some? && license in s.rows
    ensures p in s.requests && s.requests[p].Reserved?
    ensures
      var s' := Next(s, CommitActivation(p)).value;
      && p in s'.requests && s'.requests[p] == Answering(s.requests[p].token)
      && (s.requests[p].license != license ==>
            license in s'.rows && s'.rows[license] == s.rows[license] && Slots(s', license) == Slots(s, license))
  {
  }

  /** While a request holds a row, other steps change at most its billing revocation. */
  lemma HeldIsKept(s: State, step: Step, q: nat)
    requires Inv(s) && Next(s, step).Some? && q in s.requests && HasRow(s.requests[q])
    requires q in Next(s, step).value.requests && HasRow(Next(s, step).value.requests[q])
    ensures
      var s', l := Next(s, step).value, s.requests[q].license;
      l in s.rows && l in s'.rows && BilledOnly(s.rows[l], s'.rows[l]) && Slots(s', l) == Slots(s, l)
  {
    SoundAt(s, q);
    if step.CommitActivation? {
      CommitStep(s, step.p, s.requests[q].license);
      SoundAt(s, step.p);
    } else if step.Bump? || step.Edit? || step.Bill? || step.Delete? {
      AdminWriteStep(s, step, s.requests[q].license);
    } else {
      QuietStep(s, step);
    }
  }

  lemma OtherNewHolder(s: State, step: Step, q: nat)
    requires Next(s, step).Some? && q in Next(s, step).value.requests && HasRow(Next(s, step).value.requests[q])
    requires q !in s.requests || s.requests[q] != Next(s, step).value.requests[q]
    requires !RunsScript(step)
    ensures step.Admit? || step.WriteTrial? || step.WriteRegistration?
    ensures step.p == q && q in s.requests
  {
  }

  predicate RunsScript(step: Step)
  {
    step.Reserve? || step.RefreshSession? || step.Deactivate? || step.Cleanup?
  }

  /** What a script leaves to the requests: a reservation and a refresh write their own, a cleanup ends its own. */
  lemma ScriptFrame(s: State, step: Step, q: nat)
    requires Next(s, step).Some? && RunsScript(step)
    ensures Next(s, step).value.returned == s.returned && Next(s, step).value.lost == s.lost
    ensures
      var s' := Next(s, step).value;
      || ((q in s'.requests <==> q in s.requests) && (q in s'.requests ==> s'.requests[q] == s.requests[q]))
      || (step.Reserve? && step.p == q && q in s.requests && s.requests[q].Admitted? && step.token !in s.issued
          && (q in s'.requests ==> s'.requests[q].Reserved? && s'.requests[q].token == step.token))
      || (step.RefreshSession? && step.p == q && q !in s.requests && q in s'.requests && s'.requests[q].Refreshed?)
      || (step.Cleanup? && step.p == q && q in s.requests && q !in s'.requests
          && (s.requests[q].CleaningToken? || s.requests[q].CleaningLicense?))
  {
    match step {
      case Reserve(p, t) => ReserveEnds(s, p, t);
      case RefreshSession(p, t, binding) => RefreshStep(s, p, t, binding);
      case Deactivate(t, binding) => DeactivateStep(s, t, binding);
      case Cleanup(p, works) =>
        CleanupStep(s, p, works);
        CleanupEnds(s, p, works);
      case _ =>
    }
  }

  /** How a request comes to hold a row, or goes on with it. */
  lemma NewHolder(s: State, step: Step, q: nat)
    requires Next(s, step).Some? && q in Next(s, step).value.requests && HasRow(Next(s, step).value.requests[q])
    requires q !in s.requests || s.requests[q] != Next(s, step).value.requests[q]
    ensures step.Admit? || step.Reserve? || step.WriteTrial? || step.WriteRegistration?
    ensures step.p == q && q in s.requests
  {
    if RunsScript(step) {
      ScriptFrame(s, step, q);
    } else {
      OtherNewHolder(s, step, q);
    }
  }

  lemma AdmitIsReady(s: State, p: nat, allowed: bool)
    requires Next(s, Admit(p, allowed)).Some? && p in Next(s, Admit(p, allowed)).value.requests
    ensures Ready(Next(s, Admit(p, allowed)).value, Next(s, Admit(p, allowed)).value.requests[p])
  {
    var s' := Next(s, Admit(p, allowed)).value;
    QuietStep(s, Admit(p, allowed));
  }

  lemma GoesOnReady(s: State, step: Step)
    requires Inv(s) && ReadyInv(s) && Next(s, step).Some?
    requires step.Reserve? || step.WriteTrial? || step.WriteRegistration?
    requires step.p in Next(s, step).value.requests
    ensures Ready(Next(s, step).value, Next(s, step).value.requests[step.p])
  {
    assert Ready(s, s.requests[step.p]);
    QuietStep(s, step);
    if step.Reserve? {
      ReserveEnds(s, step.p, step.token);
    }
  }

  lemma NextKeepsReady(s: State, step: Step)
    requires Inv(s) && ReadyInv(s) && Next(s, step).Some?
    ensures ReadyInv(Next(s, step).value)
  {
    var s' := Next(s, step).value;
    forall q | q in s'.requests ensures Ready(s', s'.requests[q]) {
      if HasRow(s'.requests[q]) {
        if q in s.requests && s.requests[q] == s'.requests[q] {
          HeldIsKept(s, step, q);
          var l := s.requests[q].license;
          assert Ready(s, s.requests[q]);
          SlotsIgnorePolicy(s.rows[l], s'.rows[l], Slots(s, l), s.requests[q].caller);
        } else {
          NewHolder(s, step, q);
          if step.Admit? {
            AdmitIsReady(s, step.p, step.allowed);
          } else {
            GoesOnReady(s, step);
          }
        }
      }
    }
  }

  lemma OthersCarryOn(s: State, step: Step, q: nat, token: string)
    requires Next(s, step).Some? && !RunsScript(step) && Carries(Next(s, step).value, q, token)
    ensures Carries(s, q, token)
  {
  }

  /** Where a carried token comes from. */
  lemma CarriedFrom(s: State, step: Step, q: nat, token: string)
    requires Next(s, step).Some? && Carries(Next(s, step).value, q, token)
    ensures Carries(s, q, token) || (step.Reserve? && step.p == q && token == step.token && token !in s.issued)
  {
    if RunsScript(step) {
      ScriptFrame(s, step, q);
    } else {
      OthersCarryOn(s, step, q, token);
    }
  }

  /** The step that ends an answer, by delivering or losing it. */
  ghost predicate Ends(s: State, step: Step, token: string)
  {
    (step.Deliver? || step.LoseAnswer?) && step.p in s.requests && s.requests[step.p] == Answering(token)
  }

  lemma AnswersFrom(s: State, step: Step, token: string)
    requires Next(s, step).Some?
    ensures token in Next(s, step).value.returned <==> token in s.returned || (step.Deliver? && Ends(s, step, token))
    ensures token in Next(s, step).value.lost <==> token in s.lost || (step.LoseAnswer? && Ends(s, step, token))
    ensures step.Deliver? || step.LoseAnswer? ==> step.p !in Next(s, step).value.requests
  {
    if RunsScript(step) {
      ScriptFrame(s, step, 0);
    }
  }

  lemma CarriedIsIssued(s: State, p: nat, token: string)
    requires Inv(s) && Carries(s, p, token)
    ensures token in s.issued
  {
    SoundAt(s, p);
  }

  lemma NextKeepsAnswers(s: State, step: Step)
    requires Inv(s) && TokensApart(s) && Next(s, step).Some?
    ensures
      var s' := Next(s, step).value;
      s'.returned <= s'.issued.Keys && s'.lost <= s'.issued.Keys
  {
    var s' := Next(s, step).value;
    NextGrows(s, step);
    forall t | t in s'.returned || t in s'.lost ensures t in s'.issued {
      AnswersFrom(s, step, t);
      if Ends(s, step, t) {
        CarriedIsIssued(s, step.p, t);
      }
    }
  }

  lemma NextKeepsApart(s: State, step: Step)
    requires Inv(s) && TokensApart(s) && Next(s, step).Some?
    ensures TokensApart(Next(s, step).value)
  {
    var s' := Next(s, step).value;
    NextKeepsAnswers(s, step);
    forall p, t | Carries(s', p, t) ensures t !in s'.returned && t !in s'.lost {
      CarriedFrom(s, step, p, t);
      AnswersFrom(s, step, t);
      assert step.Deliver? || step.LoseAnswer? ==> (Carries(s, step.p, t) ==> step.p == p);
    }
    forall p, q, t | Carries(s', p, t) && Carries(s', q, t) ensures p == q {
      CarriedFrom(s, step, p, t);
      CarriedFrom(s, step, q, t);
      if Carries(s, p, t) {
        CarriedIsIssued(s, p, t);
      }
      if Carries(s, q, t) {
        CarriedIsIssued(s, q, t);
      }
    }
  }

  lemma StepKeepsAdmissions(s: State, step: Step, s': State)
    requires AdmissionInv(s) && Next(s, step) == Some(s')
    ensures AdmissionInv(s')
  {
    StepKeepsInv(s, step, s');
    NextKeepsReady(s, step);
    NextKeepsApart(s, step);
  }

  lemma {:induction false} RunKeepsAdmissions(states: seq<State>, steps: seq<Step>, i: nat)
    requires FencingRuns.Run(states, steps) && i < |states|
    ensures AdmissionInv(states[i])
  {
    if i == 0 {
      RunKeepsInv(states, steps, i);
    } else {
      var k := i - 1;
      RunKeepsAdmissions(states, steps, k);
      assert Next(states[k], steps[k]) == Some(states[k + 1]);
      StepKeepsAdmissions(states[k], steps[k], states[i]);
    }
  }

  // ---------------------------------------------------------------- all or nothing

  /** The transaction is over, its caller is registered, and its trial, if there is one, has a start. */
  ghost predicate Completed(s: State, s': State, p: nat)
    requires p in s.requests && s.requests[p].Reserved?
  {
    var r := s.requests[p];
    && p in s'.requests && s'.requests[p] == Answering(r.token)
    && Slots(s', r.license) == Slots(s, r.license) + {r.caller}
    && r.license in s.rows && r.license in s'.rows
    && var policy, policy' := s.rows[r.license].policy, s'.rows[r.license].policy;
       && s'.rows[r.license] == s.rows[r.license].(policy := policy')
       && policy' == policy.(trialStartedAt := policy'.trialStartedAt)
       && (if Unstarted(policy) then policy'.trialStartedAt.Some? else policy' == policy)
  }

  /** Some reservation of this token is completed between two states. */
  ghost predicate Completes(s: State, s': State, token: string)
  {
    exists p :: p in s.requests && s.requests[p].Reserved? && s.requests[p].token == token && Completed(s, s', p)
  }

  /** The client has the token, is about to get it, or will never get it although it was committed. */
  ghost predicate Settled(s: State, token: string)
  {
    token in s.returned || token in s.lost || exists p :: p in s.requests && s.requests[p] == Answering(token)
  }

  /** A commit writes registration and trial start together, and keeps to the slot limits. */
  lemma CommitIsWhole(s: State, p: nat)
    requires AdmissionInv(s) && Next(s, CommitActivation(p)).Some?
    ensures p in s.requests && s.requests[p].Reserved?
    ensures Completed(s, Next(s, CommitActivation(p)).value, p)
    ensures
      var s', l := Next(s, CommitActivation(p)).value, s.requests[p].license;
      && (s.rows[l].maxIps > 0 ==> |Ips(Slots(s', l))| <= Max(|Ips(Slots(s, l))|, s.rows[l].maxIps))
      && (s.rows[l].maxDevices > 0 ==> |Devices(Slots(s', l))| <= Max(|Devices(Slots(s, l))|, s.rows[l].maxDevices))
  {
    var r := s.requests[p];
    assert Ready(s, r);
    SlotErrorIsExact(s.rows[r.license], Slots(s, r.license), r.caller);
  }

  lemma OtherAnswersAreOld(s: State, step: Step, p: nat)
    requires Next(s, step).Some? && !RunsScript(step) && !step.CommitActivation?
    requires p in Next(s, step).value.requests && Next(s, step).value.requests[p].Answering?
    ensures p in s.requests && s.requests[p] == Next(s, step).value.requests[p]
  {
  }

  /** Only a commit starts an answer. */
  lemma AnswerFrom(s: State, step: Step, p: nat)
    requires Next(s, step).Some?
    requires p in Next(s, step).value.requests && Next(s, step).value.requests[p].Answering?
    ensures (p in s.requests && s.requests[p] == Next(s, step).value.requests[p])
            || (step == CommitActivation(p) && p in s.requests && s.requests[p].Reserved?
                && s.requests[p].token == Next(s, step).value.requests[p].token)
  {
    if RunsScript(step) {
      ScriptFrame(s, step, p);
    } else if !step.CommitActivation? {
      OtherAnswersAreOld(s, step, p);
    }
  }

  lemma OtherAnswersGoOn(s: State, step: Step, p: nat)
    requires Next(s, step).Some? && !RunsScript(step) && p in s.requests && s.requests[p].Answering?
    ensures (p in Next(s, step).value.requests && Next(s, step).value.requests[p] == s.requests[p])
            || Ends(s, step, s.requests[p].token)
  {
  }

  lemma AnswersGoOn(s: State, step: Step, p: nat)
    requires Next(s, step).Some? && p in s.requests && s.requests[p].Answering?
    ensures (p in Next(s, step).value.requests && Next(s, step).value.requests[p] == s.requests[p])
            || Ends(s, step, s.requests[p].token)
  {
    if RunsScript(step) {
      ScriptFrame(s, step, p);
    } else {
      OtherAnswersGoOn(s, step, p);
    }
  }

  lemma SettledStays(s: State, step: Step, token: string)
    requires Next(s, step).Some? && Settled(s, token)
    ensures Settled(Next(s, step).value, token)
  {
    AnswersFrom(s, step, token);
    if token !in s.returned && token !in s.lost {
      var p :| p in s.requests && s.requests[p] == Answering(token);
      AnswersGoOn(s, step, p);
    }
  }

  /** Over one step a token becomes settled exactly by completing its activation. */
  lemma SettlesByCompleting(s: State, step: Step, s': State, token: string)
    requires AdmissionInv(s) && Next(s, step) == Some(s')
    ensures Settled(s', token) <==> Settled(s, token) || Completes(s, s', token)
  {
    if Settled(s, token) {
      SettledStays(s, step, token);
    } else if Settled(s', token) {
      AnswersFrom(s, step, token);
      var p :| p in s'.requests && s'.requests[p] == Answering(token);
      AnswerFrom(s, step, p);
      CommitIsWhole(s, p);
      assert Completed(s, s', p);
    }
  }

  /**
   In every run a token has been returned, or is being returned, or was lost on its way, if and
   only if its registration and trial start were committed; a returned one was committed before.
   */
  lemma {:induction false} CommittedIffAnswered(states: seq<State>, steps: seq<Step>, j: nat, token: string)
    requires FencingRuns.Run(states, steps) && j < |states|
    ensures Settled(states[j], token) <==> exists i :: 0 <= i < j && Completes(states[i], states[i + 1], token)
    ensures token in states[j].returned ==> exists i :: 0 <= i < j && Completes(states[i], states[i + 1], token)
  {
    if j > 0 {
      var k := j - 1;
      CommittedIffAnswered(states, steps, k, token);
      RunKeepsAdmissions(states, steps, k);
      assert Next(states[k], steps[k]) == Some(states[k + 1]);
      SettlesByCompleting(states[k], steps[k], states[j], token);
      if Settled(states[j], token) && !Settled(states[k], token) {
        assert Completes(states[k], states[k + 1], token);
      }
    }
  }

  /** The activation that registered this caller, by a step of a run. */
  ghost predicate Registers(s: State, step: Step, license: string, caller: Registration)
  {
    && step.CommitActivation? && step.p in s.requests && s.requests[step.p].Reserved?
    && s.requests[step.p].license == license && s.requests[step.p].caller == caller
  }

  lemma SlotsFrom(s: State, step: Step, license: string, caller: Registration)
    requires Next(s, step).Some? && caller in Slots(Next(s, step).value, license)
    ensures caller in Slots(s, license) || Registers(s, step, license, caller)
  {
    if !(step.CommitActivation? || step.Bump? || step.Edit? || step.Bill? || step.Delete?) {
      QuietStep(s, step);
    }
  }

  /** Every committed registration is there from the start or belongs to a committed activation. */
  lemma {:induction false} RegistrationHasToken(states: seq<State>, steps: seq<Step>, j: nat,
                                                license: string, caller: Registration)
    requires FencingRuns.Run(states, steps) && j < |states| && caller in Slots(states[j], license)
    ensures || caller in Slots(states[0], license)
            || exists i :: 0 <= i < j && Registers(states[i], steps[i], license, caller)
                           && Settled(states[j], states[i].requests[steps[i].p].token)
  {
    if j > 0 {
      var k := j - 1;
      assert Next(states[k], steps[k]) == Some(states[k + 1]);
      SlotsFrom(states[k], steps[k], license, caller);
      if Registers(states[k], steps[k], license, caller) {
        CommitSettles(states[k], steps[k].p, states[j]);
      } else {
        RegistrationHasToken(states, steps, k, license, caller);
        if caller !in Slots(states[0], license) {
          var i :| 0 <= i < k && Registers(states[i], steps[i], license, caller)
                   && Settled(states[k], states[i].requests[steps[i].p].token);
          SettledStays(states[k], steps[k], states[i].requests[steps[i].p].token);
        }
      }
    }
  }

  lemma CommitSettles(s: State, p: nat, s': State)
    requires Next(s, CommitActivation(p)) == Some(s')
    ensures p in s.requests && s.requests[p].Reserved? && Settled(s', s.requests[p].token)
  {
    assert s'.requests[p] == Answering(s.requests[p].token);
  }

  /** A step other than an admin's that changes a trial start is the commit of an activation. */
  lemma TrialStartFrom(s: State, step: Step, license: string)
    requires Next(s, step).Some? && license in s.rows && license in Next(s, step).value.rows
    requires !((step.Edit? || step.Bump?) && step.license == license)
    requires Next(s, step).value.rows[license].policy.trialStartedAt != s.rows[license].policy.trialStartedAt
    ensures step.CommitActivation? && step.p in s.requests && s.requests[step.p].Reserved?
    ensures s.requests[step.p].license == license
  {
  }

  lemma RowsStayGone(s: State, step: Step, license: string)
    requires Next(s, step).Some? && license in Next(s, step).value.rows
    ensures license in s.rows
  {
  }

  /** Without an admin's write to the row, a trial start changes only with a committed activation. */
  lemma {:induction false} TrialStartHasToken(states: seq<State>, steps: seq<Step>, i: nat, j: nat, license: string)
    returns (k: nat)
    requires FencingRuns.Run(states, steps) && i <= j < |states| && license in states[i].rows && license in states[j].rows
    requires forall k | i <= k < j :: !((steps[k].Edit? || steps[k].Bump?) && steps[k].license == license)
    requires states[i].rows[license].policy.trialStartedAt != states[j].rows[license].policy.trialStartedAt
    ensures i <= k < j && steps[k].CommitActivation? && steps[k].p in states[k].requests
    ensures
      var r := states[k].requests[steps[k].p];
      r.Reserved? && r.license == license && Settled(states[j], r.token)
  {
    k := j - 1;
    assert Next(states[k], steps[k]) == Some(states[k + 1]);
    RowsStayGone(states[k], steps[k], license);
    if states[k].rows[license].policy.trialStartedAt != states[j].rows[license].policy.trialStartedAt {
      TrialStartFrom(states[k], steps[k], license);
      CommitSettles(states[k], steps[k].p, states[j]);
    } else {
      k := TrialStartHasToken(states, steps, i, j - 1, license);
      SettledStays(states[j - 1], steps[j - 1], states[k].requests[steps[k].p].token);
    }
  }

  // ---------------------------------------------------------------- slots

  ghost predicate WithLimits(s: State, license: string, maxIps: nat, maxDevices: nat)
  {
    license in s.rows && s.rows[license].maxIps == maxIps && s.rows[license].maxDevices == maxDevices
  }

  ghost predicate WithinSlots(s: State, license: string, maxIps: nat, maxDevices: nat)
  {
    && (maxIps > 0 ==> |Ips(Slots(s, license))| <= maxIps)
    && (maxDevices > 0 ==> |Devices(Slots(s, license))| <= maxDevices)
  }

  lemma StepKeepsSlots(s: State, step: Step, s': State, license: string, maxIps: nat, maxDevices: nat)
    requires AdmissionInv(s) && Next(s, step) == Some(s')
    requires WithLimits(s, license, maxIps, maxDevices) && WithinSlots(s, license, maxIps, maxDevices)
    ensures WithinSlots(s', license, maxIps, maxDevices)
  {
    if step.CommitActivation? && s.requests[step.p].license == license {
      CommitIsWhole(s, step.p);
    } else {
      OtherStepsAddNoSlots(s, step, license);
      FewerSlots(Slots(s', license), Slots(s, license));
    }
  }

  /** While its limits are fixed, a license keeps within the positive ones, whatever interleaves. */
  lemma {:induction false} RunKeepsSlots(states: seq<State>, steps: seq<Step>, j: nat, license: string,
                                         maxIps: nat, maxDevices: nat)
    requires FencingRuns.Run(states, steps) && j < |states|
    requires forall k | 0 <= k <= j :: WithLimits(states[k], license, maxIps, maxDevices)
    requires WithinSlots(states[0], license, maxIps, maxDevices)
    ensures WithinSlots(states[j], license, maxIps, maxDevices)
  {
    if j > 0 {
      var k := j - 1;
      RunKeepsSlots(states, steps, k, license, maxIps, maxDevices);
      RunKeepsAdmissions(states, steps, k);
      assert Next(states[k], steps[k]) == Some(states[k + 1]) && WithLimits(states[k], license, maxIps, maxDevices);
      StepKeepsSlots(states[k], steps[k], states[j], license, maxIps, maxDevices);
    }
  }

  lemma OtherStepsAddNoSlots(s: State, step: Step, license: string)
    requires Next(s, step).Some?
    requires step.CommitActivation? ==> step.p in s.requests && s.requests[step.p].Reserved?
                                        && s.requests[step.p].license != license
    ensures Slots(Next(s, step).value, license) <= Slots(s, license)
  {
    if !(step.CommitActivation? || step.Bump? || step.Edit? || step.Bill? || step.Delete?) {
      QuietStep(s, step);
    }
  }

  // ---------------------------------------------------------------- failed activations

  /** A token that was issued and can no longer be returned. */
  ghost predicate Withdrawn(s: State, token: string)
  {
    token in s.issued && token !in s.returned && token !in s.lost && forall p :: !Carries(s, p, token)
  }

  lemma WithdrawnStays(s: State, step: Step, token: string)
    requires Next(s, step).Some? && Withdrawn(s, token)
    ensures Withdrawn(Next(s, step).value, token)
  {
    var s' := Next(s, step).value;
    NextGrows(s, step);
    AnswersFrom(s, step, token);
    assert step.Deliver? || step.LoseAnswer? ==> !Carries(s, step.p, token);
    forall p ensures !Carries(s', p, token) {
      if Carries(s', p, token) {
        CarriedFrom(s, step, p, token);
      }
    }
  }

  lemma FailWithdraws(s: State, p: nat)
    requires AdmissionInv(s) && Next(s, FailActivation(p)).Some?
    ensures p in s.requests && s.requests[p].Reserved?
    ensures Withdrawn(Next(s, FailActivation(p)).value, s.requests[p].token)
    ensures Next(s, FailActivation(p)).value.rows == s.rows && Next(s, FailActivation(p)).value.slots == s.slots
  {
    SoundAt(s, p);
    var s', token := Next(s, FailActivation(p)).value, s.requests[p].token;
    assert Carries(s, p, token);
    forall q ensures !Carries(s', q, token) {
      if Carries(s', q, token) {
        CarriedFrom(s, FailActivation(p), q, token);
      }
    }
  }

  lemma {:induction false} RunKeepsWithdrawn(states: seq<State>, steps: seq<Step>, i: nat, j: nat, token: string)
    requires FencingRuns.Run(states, steps) && i <= j < |states| && Withdrawn(states[i], token)
    ensures Withdrawn(states[j], token)
  {
    if i < j {
      RunKeepsWithdrawn(states, steps, i, j - 1, token);
      assert Next(states[j - 1], steps[j - 1]) == Some(states[j - 1 + 1]);
      WithdrawnStays(states[j - 1], steps[j - 1], token);
    }
  }

  /** An activation that fails after reserving writes nothing, and its token is never returned. */
  lemma FailedActivationReturnsNothing(states: seq<State>, steps: seq<Step>, i: nat, j: nat)
    requires FencingRuns.Run(states, steps) && i < j < |states| && steps[i].FailActivation?
    ensures steps[i].p in states[i].requests && states[i].requests[steps[i].p].Reserved?
    ensures states[i + 1].rows == states[i].rows && states[i + 1].slots == states[i].slots
    ensures !Settled(states[j], states[i].requests[steps[i].p].token)
  {
    RunKeepsAdmissions(states, steps, i);
    assert Next(states[i], steps[i]) == Some(states[i + 1]);
    FailWithdraws(states[i], steps[i].p);
    var token := states[i].requests[steps[i].p].token;
    RunKeepsWithdrawn(states, steps, i + 1, j, token);
    assert forall p | p in states[j].requests && states[j].requests[p] == Answering(token) :: Carries(states[j], p, token);
  }

  /** Issued once, and no longer stored. */
  ghost predicate Gone(s: State, token: string)
  {
    token in s.issued && token !in s.redis.keys
  }

  /** No script but a registration adds a key, and that one adds only its fresh token. */
  lemma ScriptAddsNoKey(s: State, step: Step, token: string)
    requires Inv(s) && Next(s, step).Some? && token !in s.redis.keys
    requires step.RefreshSession? || step.Deactivate? || step.Cleanup?
    ensures token !in Next(s, step).value.redis.keys
  {
    match step {
      case RefreshSession(p, t, binding) =>
        RefreshStep(s, p, t, binding);
        ApplyMembers(s.redis, Timed(CallRefresh(t, binding), s.now), "");
      case Deactivate(t, binding) =>
        DeactivateStep(s, t, binding);
        ApplyMembers(s.redis, Timed(CallRemove(t, binding), s.now), "");
      case Cleanup(p, works) =>
        CleanupStep(s, p, works);
        var r := s.requests[p];
        if works && r.CleaningToken? {
          ApplyMembers(s.redis, Timed(CallRemove(r.token, r.binding), s.now), "");
        } else if works {
          ApplyMembers(s.redis, Timed(CallRemoveAll(r.license, r.minimum), s.now), "");
        }
      case _ =>
    }
  }

  lemma ReserveAddsOneKey(s: State, p: nat, t: string, token: string)
    requires Inv(s) && Next(s, Reserve(p, t)).Some? && token !in s.redis.keys && token != t
    ensures token !in Next(s, Reserve(p, t)).value.redis.keys
  {
    ReserveStep(s, p, t);
    var r := s.requests[p];
    RegisterKeys(s.redis, Timed(CallRegister(r.license, r.revision, r.binding, t, r.maxSessions), s.now));
  }

  lemma OtherStepsKeepRedis(s: State, step: Step)
    requires Next(s, step).Some?
    requires !(step.RefreshSession? || step.Deactivate? || step.Cleanup? || step.Reserve?)
    ensures Next(s, step).value.redis == s.redis
  {
  }

  lemma GoneStays(s: State, step: Step, token: string)
    requires Inv(s) && Next(s, step).Some? && Gone(s, token)
    ensures Gone(Next(s, step).value, token)
  {
    NextGrows(s, step);
    if step.Reserve? {
      ReserveStep(s, step.p, step.token);
      ReserveAddsOneKey(s, step.p, step.token, token);
    } else if step.RefreshSession? || step.Deactivate? || step.Cleanup? {
      ScriptAddsNoKey(s, step, token);
    } else {
      OtherStepsKeepRedis(s, step);
    }
  }

  /** Once an issued token's key is gone, it stays gone in every later state. */
  lemma {:induction false} GoneForever(states: seq<State>, steps: seq<Step>, i: nat, j: nat, token: string)
    requires FencingRuns.Run(states, steps) && i <= j < |states| && Gone(states[i], token)
    ensures Gone(states[j], token)
  {
    if i < j {
      var k := j - 1;
      GoneForever(states, steps, i, k, token);
      RunKeepsInv(states, steps, k);
      assert Next(states[k], steps[k]) == Some(states[k + 1]);
      GoneStays(states[k], steps[k], token);
    }
  }

  lemma CleanupRemoves(s: State, p: nat)
    requires Inv(s) && Next(s, Cleanup(p, true)).Some? && p in s.requests && s.requests[p].CleaningToken?
    ensures Gone(Next(s, Cleanup(p, true)).value, s.requests[p].token)
  {
    CleanupStep(s, p, true);
    SoundAt(s, p);
    var token := s.requests[p].token;
    var i := s.issued[token];
    assert NotAhead(s.rows, i);
    FailedReservationIsGone(s.redis, i.license, i.revision, i.binding, token, s.now, s.now, "");
    NextGrows(s, Cleanup(p, true));
  }

  ghost predicate Checking(s: State, p: nat, token: string)
  {
    p in s.requests && s.requests[p].Refreshed? && s.requests[p].token == token
  }

  lemma OthersCheckOn(s: State, step: Step, p: nat)
    requires Next(s, step).Some? && !RunsScript(step)
    requires p in Next(s, step).value.requests && Next(s, step).value.requests[p].Refreshed?
    ensures p in s.requests && s.requests[p] == Next(s, step).value.requests[p]
  {
  }

  lemma OthersOpenNoCheck(s: State, step: Step, p: nat)
    requires Next(s, step).Some? && !step.RefreshSession?
    requires p in Next(s, step).value.requests && Next(s, step).value.requests[p].Refreshed?
    ensures p in s.requests && s.requests[p] == Next(s, step).value.requests[p]
  {
    if RunsScript(step) {
      ScriptFrame(s, step, p);
    } else {
      OthersCheckOn(s, step, p);
    }
  }

  lemma CheckingFrom(s: State, step: Step, p: nat, token: string)
    requires Inv(s) && Next(s, step).Some? && Checking(Next(s, step).value, p, token) && token !in s.redis.keys
    ensures Checking(s, p, token) && s.requests[p] == Next(s, step).value.requests[p]
  {
    if step.RefreshSession? {
      RefreshOpens(s, step.p, step.token, step.binding);
    } else {
      OthersOpenNoCheck(s, step, p);
    }
  }

  /** After a token's key is gone, whoever still checks it has refreshed it before. */
  lemma {:induction false} CheckingFromBefore(states: seq<State>, steps: seq<Step>, i: nat, j: nat, p: nat, token: string)
    requires FencingRuns.Run(states, steps) && i <= j < |states| && Gone(states[i], token) && Checking(states[j], p, token)
    ensures Checking(states[i], p, token)
  {
    if i < j {
      var k := j - 1;
      GoneForever(states, steps, i, k, token);
      RunKeepsInv(states, steps, k);
      assert Next(states[k], steps[k]) == Some(states[k + 1]);
      CheckingFrom(states[k], steps[k], p, token);
      CheckingFromBefore(states, steps, i, k, p, token);
    }
  }

  /**
   The removal that follows a failed activation, or a refused check, is final: in every later
   state the token has no key, refreshing it opens no check, and no check accepts it but one
   whose refresh had run before the removal.
   */
  lemma RemovedTokenIsGone(states: seq<State>, steps: seq<Step>, i: nat, j: nat, token: string)
    requires FencingRuns.Run(states, steps) && i < j < |steps| && steps[i].Cleanup? && steps[i].works
    requires steps[i].p in states[i].requests && states[i].requests[steps[i].p].CleaningToken?
    requires states[i].requests[steps[i].p].token == token
    ensures token !in states[j].redis.keys
    ensures steps[j].RefreshSession? && steps[j].token == token ==> states[j + 1].requests == states[j].requests
    ensures Accepts(states[j], steps[j], token) ==> Checking(states[i + 1], steps[j].p, token)
  {
    RunKeepsInv(states, steps, i);
    RunKeepsInv(states, steps, j);
    assert Next(states[i], steps[i]) == Some(states[i + 1]);
    assert Next(states[j], steps[j]) == Some(states[j + 1]);
    CleanupRemoves(states[i], steps[i].p);
    GoneForever(states, steps, i + 1, j, token);
    if steps[j].RefreshSession? && steps[j].token == token {
      RefreshOpens(states[j], steps[j].p, token, steps[j].binding);
    }
    if Accepts(states[j], steps[j], token) {
      CheckingFromBefore(states, steps, i + 1, j, steps[j].p, token);
    }
  }

  lemma DeactivationRemoves(s: State, token: string, binding: string, s': State)
    requires Inv(s) && Next(s, Deactivate(token, binding)) == Some(s') && token in s.issued
    ensures if binding == s.issued[token].binding then Gone(s', token)
            else token in At(s.redis, s.now).keys ==>
              token in s'.redis.keys && s'.redis.keys[token] == s.redis.keys[token]
  {
    DeactivateStep(s, token, binding);
    NextGrows(s, Deactivate(token, binding));
    RemoveIsExact(s.redis, token, binding, s.now);
    var i := s.issued[token];
    assert NotAhead(s.rows, i);
    LicenseOfEncoded(i.license, i.revision, i.binding);
  }

  /**
   Deactivation is final: under its own binding the token has no key in any later state, no refresh
   opens a check and none accepts it but one whose refresh had run before. Under any other binding
   its session stays exactly as it was.
   */
  lemma DeactivatedTokenIsGone(states: seq<State>, steps: seq<Step>, i: nat, j: nat, token: string, binding: string)
    requires FencingRuns.Run(states, steps) && i < j < |steps| && steps[i] == Deactivate(token, binding)
    requires token in states[i].issued
    ensures binding == states[i].issued[token].binding ==>
              && token !in states[j].redis.keys
              && (steps[j].RefreshSession? && steps[j].token == token ==> states[j + 1].requests == states[j].requests)
              && (Accepts(states[j], steps[j], token) ==> Checking(states[i + 1], steps[j].p, token))
    ensures binding != states[i].issued[token].binding && token in At(states[i].redis, states[i].now).keys ==>
              token in states[i + 1].redis.keys && states[i + 1].redis.keys[token] == states[i].redis.keys[token]
  {
    RunKeepsInv(states, steps, i);
    RunKeepsInv(states, steps, j);
    assert Next(states[i], steps[i]) == Some(states[i + 1]);
    assert Next(states[j], steps[j]) == Some(states[j + 1]);
    DeactivationRemoves(states[i], token, binding, states[i + 1]);
    if binding == states[i].issued[token].binding {
      GoneForever(states, steps, i + 1, j, token);
      if steps[j].RefreshSession? && steps[j].token == token {
        RefreshOpens(states[j], steps[j].p, token, steps[j].binding);
      }
      if Accepts(states[j], steps[j], token) {
        CheckingFromBefore(states, steps, i + 1, j, steps[j].p, token);
      }
    }
  }

  // ---------------------------------------------------------------- who writes the registrations

  /** Registrations appear by commits, and go only with a bump that drops them or with their license. */
  lemma SlotWriters(s: State, step: Step, license: string)
    requires Next(s, step).Some?
    ensures Slots(Next(s, step).value, license) ==
            if step.CommitActivation? && step.p in s.requests && s.requests[step.p].Reserved?
               && s.requests[step.p].license == license then Slots(s, license) + {s.requests[step.p].caller}
            else if step.Bump? && step.license == license then Slots(s, license) * step.kept
            else if step.Delete? && step.license == license then {}
            else Slots(s, license)
  {
    if !(step.CommitActivation? || step.Bump? || step.Edit? || step.Bill? || step.Delete?) {
      QuietStep(s, step);
    }
  }
}
