/** What session fencing promises over whole runs, whatever the interleaving. */
module FencingRuns {
  import opened Wrappers
  import opened SessionCodec
  import opened SessionStore
  import opened SessionIndex
  import opened LicenseStatus
  import opened Admission
  import opened Fencing

  /** A run: each state is the one before it after the step between them. */
  ghost predicate Run(states: seq<State>, steps: seq<Step>)
  {
    && |states| == |steps| + 1 && Init(states[0])
    && forall i | 0 <= i < |steps| :: Next(states[i], steps[i]) == Some(states[i + 1])
  }

  /** This step is the license read of a heartbeat or usage report, and it accepts the token. */
  ghost predicate Accepts(s: State, step: Step, token: string)
  {
    step.CheckSession? && step.p in s.requests
    && var r := s.requests[step.p];
       r.Refreshed? && r.token == token && Verdict(s, r.license, r.revision, step.allowed)
  }

  /** A session that the next check would find current: it is live and carries the committed revision. */
  ghost predicate Current(s: State, token: string)
  {
    token in At(s.redis, s.now).keys && token in s.issued
    && s.issued[token].license in s.rows
    && s.issued[token].revision == s.rows[s.issued[token].license].revision
  }

  lemma InitHasInv(s: State)
    requires Init(s)
    ensures Inv(s)
  {
  }

  lemma {:induction false} RunKeepsInv(states: seq<State>, steps: seq<Step>, i: nat)
    requires Run(states, steps) && i < |states|
    ensures Inv(states[i])
  {
    if i == 0 {
      InitHasInv(states[0]);
    } else {
      var k := i - 1;
      RunKeepsInv(states, steps, k);
      assert Next(states[k], steps[k]) == Some(states[k + 1]);
      StepKeepsInv(states[k], steps[k], states[k + 1]);
    }
  }

  /** In every reachable state each stored session's revision is at most the committed one. */
  lemma StoredRevisionsAreReached(states: seq<State>, steps: seq<Step>, i: nat, token: string)
    requires Run(states, steps) && i < |states| && token in states[i].redis.keys
    ensures exists license: string, revision: nat, binding: string ::
              states[i].redis.keys[token].value == Encode(license, revision, binding)
              && LuaSplit(states[i].redis.keys[token].value) == Fields(license, Decimal(revision), binding)
              && (license in states[i].rows ==> revision <= states[i].rows[license].revision)
  {
    RunKeepsInv(states, steps, i);
    var issue := states[i].issued[token];
    assert NotAhead(states[i].rows, issue);
    LicenseOfEncoded(issue.license, issue.revision, issue.binding);
  }

  lemma FirstReservation(s: State, license: string, row: License, caller: Registration, binding: string, token: string)
    returns (s': State)
    requires s.redis == Store(map[], map[]) && s.issued == map[] && s.rows == map[license := row]
    requires s.requests == map[0 := Admitted(license, row.revision, row.maxSessions, caller, binding)]
    ensures Next(s, Reserve(0, token)) == Some(s') && Current(s', token)
  {
    var live := At(s.redis, s.now);
    assert live == s.redis;
    assert WithRevision(live, Members(live.indexes, license), Decimal(row.revision)) == {};
    s' := Next(s, Reserve(0, token)).value;
  }

  /** A run of three steps from an initial state. */
  lemma ThreeSteps(s0: State, s1: State, s2: State, s3: State, a: Step, b: Step, c: Step)
    requires Init(s0) && Next(s0, a) == Some(s1) && Next(s1, b) == Some(s2) && Next(s2, c) == Some(s3)
    ensures Run([s0, s1, s2, s3], [a, b, c])
  {
  }

  lemma FirstAdmission(s: State, license: string, row: License, caller: Registration, binding: string)
    requires s.rows == map[license := row] && s.slots == map[] && s.locks == map[] && IsActive(row.policy, s.now)
    requires s.requests == map[0 := Activating(license, row.revision, caller, binding)]
    ensures Next(s, Admit(0, true))
         == Some(s.(requests := map[0 := Admitted(license, row.revision, row.maxSessions, caller, binding)],
                    locks := map[license := 0]))
  {
    assert Ips({}) == {} && Devices({}) == {};
    assert SlotError(row, {}, caller).None?;
    var r := Admitted(license, row.revision, row.maxSessions, caller, binding);
    assert s.requests[0 := r] == map[0 := r] && s.locks[license := 0] == map[license := 0];
  }

  /** Three steps of an activation of an active license reach a state with a current session. */
  lemma CurrentIsReachable(license: string, row: License, now: int, caller: Registration, binding: string, token: string)
    requires LicenseId(license) && row.revision <= MAX_REVISION && IsActive(row.policy, now)
    ensures exists states: seq<State>, steps: seq<Step> ::
              Run(states, steps) && states[0].rows == map[license := row] && Current(states[|steps|], token)
  {
    var s0 := State(now, map[license := row], map[], map[], Store(map[], map[]), map[], map[], {}, {});
    var s1 := s0.(requests := map[0 := Activating(license, row.revision, caller, binding)]);
    var s2 := s1.(requests := map[0 := Admitted(license, row.revision, row.maxSessions, caller, binding)],
                  locks := map[license := 0]);
    var start := StartActivation(0, license, caller, binding);
    assert Next(s0, start) == Some(s1);
    FirstAdmission(s1, license, row, caller, binding);
    var s3 := FirstReservation(s2, license, row, caller, binding, token);
    ThreeSteps(s0, s1, s2, s3, start, Admit(0, true), Reserve(0, token));
    var states, steps := [s0, s1, s2, s3], [start, Admit(0, true), Reserve(0, token)];
    assert states[|steps|] == s3;
  }

  // ---------------------------------------------------------------- fencing

  /** Committed revisions never fall, deleted licenses never return, issued tokens never change. */
  ghost predicate Grows(s: State, s': State)
  {
    && (forall l | l in s'.rows :: l in s.rows && s.rows[l].revision <= s'.rows[l].revision)
    && (forall t | t in s.issued :: t in s'.issued && s'.issued[t] == s.issued[t])
  }

  lemma ActivationGrows(s: State, step: Step)
    requires NextActivation(s, step).Some?
    ensures Grows(s, NextActivation(s, step).value)
  {
  }

  lemma WriteGrows(s: State, step: Step)
    requires NextWrite(s, step).Some?
    ensures Grows(s, NextWrite(s, step).value)
  {
  }

  lemma SessionGrows(s: State, step: Step)
    requires NextSession(s, step).Some?
    ensures Grows(s, NextSession(s, step).value)
  {
  }

  lemma AdminGrows(s: State, step: Step)
    requires NextAdmin(s, step).Some?
    ensures Grows(s, NextAdmin(s, step).value)
  {
  }

  lemma NextGrows(s: State, step: Step)
    requires Next(s, step).Some?
    ensures Grows(s, Next(s, step).value)
  {
    if NextActivation(s, step).Some? {
      ActivationGrows(s, step);
    } else if NextWrite(s, step).Some? {
      WriteGrows(s, step);
    } else if NextSession(s, step).Some? {
      SessionGrows(s, step);
    } else if NextAdmin(s, step).Some? {
      AdminGrows(s, step);
    }
  }

  lemma StepGrows(before: State, s: State, step: Step, s': State)
    requires Grows(before, s) && Next(s, step) == Some(s')
    ensures Grows(before, s')
  {
    NextGrows(s, step);
  }

  lemma {:induction false} RunGrows(states: seq<State>, steps: seq<Step>, i: nat, j: nat)
    requires Run(states, steps) && i <= j < |states|
    ensures Grows(states[i], states[j])
  {
    if i < j {
      var k := j - 1;
      RunGrows(states, steps, i, k);
      assert Next(states[k], steps[k]) == Some(states[k + 1]);
      StepGrows(states[i], states[k], steps[k], states[j]);
    }
  }

  /** An accepted token carries the committed revision of an active license. */
  lemma AcceptedIsCurrent(states: seq<State>, steps: seq<Step>, i: nat, token: string)
    requires Run(states, steps) && i < |steps| && Accepts(states[i], steps[i], token)
    ensures token in states[i].issued
    ensures var issue := states[i].issued[token];
            issue.license in states[i].rows
            && issue.revision == states[i].rows[issue.license].revision
            && IsActive(states[i].rows[issue.license].policy, states[i].now)
  {
    RunKeepsInv(states, steps, i);
    assert Sound(states[i], steps[i].p, states[i].requests[steps[i].p]);
  }

  /**
   Fencing: a token issued before its license's revision was raised is never accepted again,
   whether or not Redis was cleaned, however the license was edited or restored since.
   */
  lemma BumpedTokenIsNeverAccepted(states: seq<State>, steps: seq<Step>, i: nat, j: nat, token: string)
    requires Run(states, steps) && i < j < |steps|
    requires steps[i].Bump? && token in states[i].issued
    requires states[i].issued[token].license == steps[i].license
    ensures !Accepts(states[j], steps[j], token)
  {
    RunKeepsInv(states, steps, i);
    assert NotAhead(states[i].rows, states[i].issued[token]);
    RunGrows(states, steps, i, j);
    RunGrows(states, steps, i + 1, j);
    assert Next(states[i], steps[i]) == Some(states[i + 1]);
    if Accepts(states[j], steps[j], token) {
      AcceptedIsCurrent(states, steps, j, token);
    }
  }

  // ---------------------------------------------------------------- cleanup

  lemma RegisterKeepsKey(redis: Store, i: Issue, token: string, maximum: int, now: int, other: string)
    requires other in At(redis, now).keys && other != token
    requires other in Members(At(redis, now).indexes, i.license) ==>
               RevisionText(redis.keys[other].value) == Some(Decimal(i.revision))
    ensures var after := Register(redis, i.license, i.revision, i.binding, token, maximum, now).0;
            other in after.keys && after.keys[other] == redis.keys[other]
  {
  }

  lemma RemoveAllKeepsKey(redis: Store, license: string, minimum: Option<nat>, now: int, other: string)
    requires other in At(redis, now).keys
    requires other in Members(At(redis, now).indexes, license) ==>
               !ShouldRemove(redis.keys[other].value, minimum)
    ensures var after := RemoveAll(redis, license, minimum, now).0;
            other in after.keys && after.keys[other] == redis.keys[other]
  {
  }

  /** A stored key is in the index of no license but its own. */
  lemma OnlyItsIndex(redis: Store, now: int, other: string, o: Issue, license: string)
    requires Indexed(redis) && other in redis.keys && LicenseId(o.license) && o.license != license
    requires redis.keys[other].value == Encode(o.license, o.revision, o.binding)
    ensures other !in Members(At(redis, now).indexes, license)
  {
    LicenseOfEncoded(o.license, o.revision, o.binding);
    assert Members(At(redis, now).indexes, license) <= Members(redis.indexes, license);
  }

  lemma NotOlder(i: Issue, minimum: nat)
    requires LicenseId(i.license)
    ensures ShouldRemove(Encode(i.license, i.revision, i.binding), Some(minimum)) <==> i.revision < minimum
  {
    LicenseOfEncoded(i.license, i.revision, i.binding);
    DecimalRoundTrip(i.revision);
  }

  lemma RegisterSpares(redis: Store, issued: map<string, Issue>, i: Issue, token: string,
                       maximum: int, now: int, other: string)
    requires Stored(redis, issued) && Indexed(redis)
    requires other in At(redis, now).keys && other != token
    requires LicenseId(issued[other].license)
    requires issued[other].license != i.license || issued[other].revision == i.revision
    ensures var after := Register(redis, i.license, i.revision, i.binding, token, maximum, now).0;
            other in after.keys && after.keys[other] == redis.keys[other]
  {
    var o := issued[other];
    if o.license != i.license {
      OnlyItsIndex(redis, now, other, o, i.license);
    } else {
      LicenseOfEncoded(o.license, o.revision, o.binding);
    }
    RegisterKeepsKey(redis, i, token, maximum, now, other);
  }

  lemma RemoveAllSpares(redis: Store, issued: map<string, Issue>, license: string, minimum: Option<nat>,
                        now: int, other: string)
    requires Stored(redis, issued) && Indexed(redis)
    requires other in At(redis, now).keys && LicenseId(issued[other].license)
    requires issued[other].license != license
             || (minimum.Some? && minimum.value <= issued[other].revision)
    ensures var after := RemoveAll(redis, license, minimum, now).0;
            other in after.keys && after.keys[other] == redis.keys[other]
  {
    if issued[other].license != license {
      OnlyItsIndex(redis, now, other, issued[other], license);
    } else {
      NotOlder(issued[other], minimum.value);
    }
    RemoveAllKeepsKey(redis, license, minimum, now, other);
  }

  lemma OtherScriptsSpare(redis: Store, c: Timed, other: string)
    requires other in At(redis, c.now).keys
    requires c.call.CallRefresh? || (c.call.CallRemove? && c.call.token != other)
    requires c.call.CallRefresh? ==> Bounded(redis, c.now)
    ensures var after := Apply(redis, c);
            other in after.keys && after.keys[other].expiresAt >= redis.keys[other].expiresAt
  {
  }

  /** The step that removes a given token under its own binding, or raises or deletes its license. */
  ghost predicate Concerns(s: State, step: Step, token: string, license: string)
  {
    || (step.Deactivate? && step.token == token && token in s.issued && step.binding == s.issued[token].binding)
    || (step.Bump? && step.license == license)
    || (step.Delete? && step.license == license)
    || (step.Cleanup? && step.p in s.requests && s.requests[step.p].CleaningToken?
        && s.requests[step.p].token == token)
  }

  lemma SoundAt(s: State, p: nat)
    requires RequestsInv(s) && p in s.requests
    ensures Sound(s, p, s.requests[p])
  {
  }

  lemma ReserveStep(s: State, p: nat, t: string)
    requires Next(s, Reserve(p, t)).Some?
    ensures p in s.requests && s.requests[p].Admitted? && t !in s.issued
    ensures var r := s.requests[p];
            Next(s, Reserve(p, t)).value.redis
            == Register(s.redis, r.license, r.revision, r.binding, t, r.maxSessions, s.now).0
  {
  }

  lemma CleanupStep(s: State, p: nat, works: bool)
    requires Next(s, Cleanup(p, works)).Some?
    ensures p in s.requests && (s.requests[p].CleaningToken? || s.requests[p].CleaningLicense?)
    ensures var r := s.requests[p];
            Next(s, Cleanup(p, works)).value.redis
            == if !works then s.redis
               else if r.CleaningToken? then Remove(s.redis, r.token, r.binding, s.now).0
               else RemoveAll(s.redis, r.license, r.minimum, s.now).0
  {
  }

  lemma ReserveSparesCurrent(s: State, p: nat, t: string, token: string)
    requires Inv(s) && Next(s, Reserve(p, t)).Some? && Current(s, token)
    ensures token in Next(s, Reserve(p, t)).value.redis.keys
    ensures Next(s, Reserve(p, t)).value.redis.keys[token] == s.redis.keys[token]
  {
    ReserveStep(s, p, t);
    SoundAt(s, p);
    assert NotAhead(s.rows, s.issued[token]);
    var r := s.requests[p];
    RegisterSpares(s.redis, s.issued, Issue(r.license, r.revision, r.binding), t, r.maxSessions, s.now, token);
  }

  lemma CleanupSparesCurrent(s: State, p: nat, works: bool, token: string)
    requires Inv(s) && Next(s, Cleanup(p, works)).Some? && Current(s, token)
    requires p in s.requests && s.requests[p].CleaningToken? ==> s.requests[p].token != token
    ensures token in Next(s, Cleanup(p, works)).value.redis.keys
    ensures Next(s, Cleanup(p, works)).value.redis.keys[token].expiresAt >= s.redis.keys[token].expiresAt
  {
    CleanupStep(s, p, works);
    SoundAt(s, p);
    assert NotAhead(s.rows, s.issued[token]);
    var r := s.requests[p];
    if works && r.CleaningLicense? {
      RemoveAllSpares(s.redis, s.issued, r.license, r.minimum, s.now, token);
    } else if works {
      OtherScriptsSpare(s.redis, Timed(CallRemove(r.token, r.binding), s.now), token);
    }
  }

  lemma RefreshStep(s: State, p: nat, t: string, binding: string)
    requires Next(s, RefreshSession(p, t, binding)).Some?
    ensures
      var s' := Next(s, RefreshSession(p, t, binding)).value;
      && s' == s.(redis := Refresh(s.redis, t, binding, s.now).0, requests := s'.requests) && p !in s.requests
      && (forall q | q in s'.requests && q != p :: q in s.requests && s'.requests[q] == s.requests[q])
      && (p in s'.requests ==> s'.requests[p].Refreshed?)
  {
  }

  lemma RefreshSparesCurrent(s: State, p: nat, t: string, binding: string, token: string)
    requires RedisInv(s) && Next(s, RefreshSession(p, t, binding)).Some? && token in At(s.redis, s.now).keys
    ensures token in Next(s, RefreshSession(p, t, binding)).value.redis.keys
    ensures Next(s, RefreshSession(p, t, binding)).value.redis.keys[token].expiresAt
            >= s.redis.keys[token].expiresAt
  {
    RefreshStep(s, p, t, binding);
    OtherScriptsSpare(s.redis, Timed(CallRefresh(t, binding), s.now), token);
  }

  /** The remove script deletes only the token it names, and only under the binding it was issued to. */
  lemma RemoveSpares(redis: Store, t: string, binding: string, now: int, other: string, o: Issue)
    requires other in At(redis, now).keys && LicenseId(o.license)
    requires redis.keys[other].value == Encode(o.license, o.revision, o.binding)
    requires t != other || o.binding != binding
    ensures var after := Remove(redis, t, binding, now).0;
            other in after.keys && after.keys[other] == redis.keys[other]
  {
    if t == other {
      LicenseOfEncoded(o.license, o.revision, o.binding);
      assert Bound(At(redis, now), t, binding) == None;
    }
  }

  lemma DeactivateStep(s: State, t: string, binding: string)
    ensures Next(s, Deactivate(t, binding)) == Some(s.(redis := Remove(s.redis, t, binding, s.now).0))
  {
  }

  lemma ScriptStepSpares(s: State, step: Step, token: string)
    requires Inv(s) && Next(s, step).Some? && Current(s, token)
    requires !Concerns(s, step, token, s.issued[token].license)
    requires step.Reserve? || step.Cleanup? || step.RefreshSession? || step.Deactivate?
    ensures token in Next(s, step).value.redis.keys
    ensures Next(s, step).value.redis.keys[token].expiresAt >= s.redis.keys[token].expiresAt
  {
    match step {
      case Reserve(p, t) =>
        ReserveSparesCurrent(s, p, t, token);
      case Cleanup(p, works) =>
        CleanupSparesCurrent(s, p, works, token);
      case RefreshSession(p, t, binding) =>
        RefreshSparesCurrent(s, p, t, binding, token);
      case Deactivate(t, binding) =>
        DeactivateStep(s, t, binding);
        assert NotAhead(s.rows, s.issued[token]);
        RemoveSpares(s.redis, t, binding, s.now, token, s.issued[token]);
      case _ =>
    }
  }

  /** The clock moves to or past the session's current expiry. */
  ghost predicate Lapses(s: State, step: Step, token: string)
  {
    step.Tick? && token in s.redis.keys && step.to >= s.redis.keys[token].expiresAt
  }

  /** Steps that leave Redis alone. */
  lemma DatabaseStepSpares(s: State, step: Step, token: string)
    requires Next(s, step).Some? && Current(s, token)
    requires !Concerns(s, step, token, s.issued[token].license)
    requires !(step.Reserve? || step.Cleanup? || step.RefreshSession? || step.Deactivate?)
    requires !Lapses(s, step, token)
    ensures var s' := Next(s, step).value;
            s'.redis == s.redis && Current(s', token) && s'.issued[token] == s.issued[token]
  {
    DatabaseStepFrame(s, step, s.issued[token].license);
  }

  lemma AdminFrame(s: State, step: Step, license: string)
    requires NextAdmin(s, step).Some? && license in s.rows && !step.Cleanup?
    requires !(step.Bump? && step.license == license) && !(step.Delete? && step.license == license)
    ensures var s' := NextAdmin(s, step).value;
            && s'.redis == s.redis && s'.issued == s.issued && s'.now == s.now
            && license in s'.rows && s'.rows[license].revision == s.rows[license].revision
  {
  }

  lemma DatabaseStepFrame(s: State, step: Step, license: string)
    requires Next(s, step).Some? && license in s.rows
    requires !(step.Reserve? || step.Cleanup? || step.RefreshSession? || step.Deactivate?)
    requires !(step.Bump? && step.license == license) && !(step.Delete? && step.license == license)
    ensures var s' := Next(s, step).value;
            && s'.redis == s.redis && s'.issued == s.issued && (s'.now == s.now || (step.Tick? && s'.now == step.to))
            && license in s'.rows && s'.rows[license].revision == s.rows[license].revision
  {
    if NextAdmin(s, step).Some? {
      AdminFrame(s, step, license);
    }
  }

  lemma ScriptStepKeepsRows(s: State, step: Step, token: string)
    requires Next(s, step).Some? && token in s.issued
    requires step.Reserve? || step.Cleanup? || step.RefreshSession? || step.Deactivate?
    ensures var s' := Next(s, step).value;
            s'.rows == s.rows && s'.now == s.now
            && token in s'.issued && s'.issued[token] == s.issued[token]
  {
    match step {
      case Reserve(p, t) => ReserveEnds(s, p, t);
      case RefreshSession(p, t, binding) => RefreshStep(s, p, t, binding);
      case Deactivate(t, binding) => DeactivateStep(s, t, binding);
      case Cleanup(p, works) => CleanupEnds(s, p, works);
      case _ =>
    }
  }

  /** No step but the token's own removal, a bump, a deletion or its expiry ends a current session. */
  lemma CurrentSurvives(s: State, step: Step, token: string)
    requires Inv(s) && Next(s, step).Some? && Current(s, token)
    requires !Concerns(s, step, token, s.issued[token].license)
    requires !Lapses(s, step, token)
    ensures var s' := Next(s, step).value;
            Current(s', token) && s'.issued[token] == s.issued[token]
            && s'.redis.keys[token].expiresAt >= s.redis.keys[token].expiresAt
  {
    if step.Reserve? || step.Cleanup? || step.RefreshSession? || step.Deactivate? {
      ScriptStepSpares(s, step, token);
      ScriptStepKeepsRows(s, step, token);
    } else {
      DatabaseStepSpares(s, step, token);
    }
  }

  lemma StepSparesCurrent(s: State, step: Step, s': State, token: string)
    requires Inv(s) && Next(s, step) == Some(s') && Current(s, token)
    requires !Concerns(s, step, token, s.issued[token].license) && !Lapses(s, step, token)
    ensures Current(s', token) && s'.issued[token] == s.issued[token]
    ensures s'.redis.keys[token].expiresAt >= s.redis.keys[token].expiresAt
  {
    CurrentSurvives(s, step, token);
  }

  /** A token that is no longer at its license's committed revision. */
  ghost predicate Older(s: State, token: string, license: string)
  {
    token in s.issued && s.issued[token].license == license
    && (license in s.rows ==> s.issued[token].revision < s.rows[license].revision)
  }

  lemma RegisterPurges(redis: Store, i: Issue, token: string, maximum: int, now: int, other: string, o: Issue)
    requires Indexed(redis) && other in At(redis, now).keys && other != token
    requires LicenseId(i.license) && o.license == i.license && o.revision != i.revision
    requires redis.keys[other].value == Encode(o.license, o.revision, o.binding)
    ensures other !in Register(redis, i.license, i.revision, i.binding, token, maximum, now).0.keys
  {
    LicenseOfEncoded(o.license, o.revision, o.binding);
    DecimalInjective(o.revision, i.revision);
    ExpiryKeepsIndex(redis, now);
    assert InIndex(At(redis, now), other, i.license);
  }

  /**
   Register's purge under the row lock deletes a live key if and only if it belongs to the
   license and is older than the committed revision.
   */
  lemma RegisterDeletesOnlyOlder(s: State, p: nat, t: string, token: string)
    requires Inv(s) && Next(s, Reserve(p, t)).Some? && token in At(s.redis, s.now).keys
    ensures p in s.requests && s.requests[p].Admitted?
    ensures token !in Next(s, Reserve(p, t)).value.redis.keys <==> Older(s, token, s.requests[p].license)
  {
    ReserveStep(s, p, t);
    SoundAt(s, p);
    assert NotAhead(s.rows, s.issued[token]);
    var r := s.requests[p];
    var i := Issue(r.license, r.revision, r.binding);
    if Older(s, token, r.license) {
      RegisterPurges(s.redis, i, t, r.maxSessions, s.now, token, s.issued[token]);
    } else {
      RegisterSpares(s.redis, s.issued, i, t, r.maxSessions, s.now, token);
    }
  }

  lemma RemoveAllPurges(redis: Store, license: string, minimum: Option<nat>, now: int, other: string, o: Issue)
    requires Indexed(redis) && other in At(redis, now).keys && LicenseId(license) && o.license == license
    requires redis.keys[other].value == Encode(o.license, o.revision, o.binding)
    requires minimum.Some? ==> o.revision < minimum.value
    ensures other !in RemoveAll(redis, license, minimum, now).0.keys
  {
    LicenseOfEncoded(o.license, o.revision, o.binding);
    if minimum.Some? {
      NotOlder(o, minimum.value);
    }
    ExpiryKeepsIndex(redis, now);
    assert InIndex(At(redis, now), other, license);
  }

  /**
   A cleanup that reaches Redis deletes a live key if and only if it belongs to the license and
   is older than the revision read back. Such a key is older than the committed revision, even
   when a new activation came in between the bump and the cleanup.
   */
  lemma CleanupDeletesOnlyOlder(s: State, p: nat, works: bool, token: string)
    requires Inv(s) && Next(s, Cleanup(p, works)).Some? && p in s.requests && s.requests[p].CleaningLicense?
    requires token in At(s.redis, s.now).keys
    ensures token in s.issued
    ensures
      var r := s.requests[p];
      token !in Next(s, Cleanup(p, works)).value.redis.keys
      <==> works && s.issued[token].license == r.license
           && (r.minimum.Some? ==> s.issued[token].revision < r.minimum.value)
    ensures token !in Next(s, Cleanup(p, works)).value.redis.keys ==> Older(s, token, s.requests[p].license)
  {
    CleanupStep(s, p, works);
    SoundAt(s, p);
    var r, i := s.requests[p], s.issued[token];
    assert NotAhead(s.rows, i);
    if works {
      if i.license == r.license && (r.minimum.Some? ==> i.revision < r.minimum.value) {
        RemoveAllPurges(s.redis, r.license, r.minimum, s.now, token, i);
      } else {
        RemoveAllSpares(s.redis, s.issued, r.license, r.minimum, s.now, token);
      }
    }
  }

  /** A current session stays current over any stretch of a run that leaves it and its revision alone. */
  lemma {:induction false} CurrentSurvivesRun(states: seq<State>, steps: seq<Step>, i: nat, j: nat, token: string)
    requires Run(states, steps) && i <= j < |states| && Current(states[i], token)
    requires forall k | i <= k < j :: !Concerns(states[k], steps[k], token, states[i].issued[token].license)
    requires forall k | i <= k < j :: !Lapses(states[k], steps[k], token)
    ensures Current(states[j], token) && states[j].issued[token] == states[i].issued[token]
    ensures states[j].redis.keys[token].expiresAt >= states[i].redis.keys[token].expiresAt
  {
    if i < j {
      var k := j - 1;
      CurrentSurvivesRun(states, steps, i, k, token);
      RunKeepsInv(states, steps, k);
      assert Next(states[k], steps[k]) == Some(states[k + 1]);
      StepSparesCurrent(states[k], steps[k], states[k + 1], token);
    }
  }
}
