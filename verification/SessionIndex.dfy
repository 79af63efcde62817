/**
 What every run of the four session scripts keeps: each live key sits in its own license's
 index, the index outlives the key, and a license with a fixed `maxSessions` never has more
 live sessions than that.
 */
module SessionIndex {
  import opened Wrappers
  import opened SessionCodec
  import opened SessionStore

  /** Keys and index sets agree, and no index expires before a key it lists. */
  ghost predicate Indexed(s: Store)
  {
    && (forall t | t in s.keys ::
          LicenseOf(s.keys[t].value).Some? && InIndex(s, t, LicenseOf(s.keys[t].value).value))
    && (forall l, t | l in s.indexes && t in s.indexes[l].members && t in s.keys ::
          LicenseOf(s.keys[t].value) == Some(l))
  }

  ghost predicate InIndex(s: Store, token: string, license: string)
    requires token in s.keys
  {
    license in s.indexes && token in s.indexes[license].members
    && s.keys[token].expiresAt <= s.indexes[license].expiresAt
  }

  /** Nothing outlives one TTL from now; the clock does not go back. */
  ghost predicate Bounded(s: Store, now: int)
  {
    forall t | t in s.keys :: s.keys[t].expiresAt <= now + SESSION_TTL_MS
  }

  /** A token no script has seen. */
  ghost predicate Fresh(s: Store, token: string)
  {
    token !in s.keys && forall l :: token !in Members(s.indexes, l)
  }

  lemma ExpiryKeepsIndex(s: Store, now: int)
    requires Indexed(s)
    ensures Indexed(At(s, now))
  {
    var live := At(s, now);
    forall t | t in live.keys
      ensures LicenseOf(live.keys[t].value).Some? && InIndex(live, t, LicenseOf(live.keys[t].value).value)
    {
      assert t in s.keys && live.keys[t] == s.keys[t];
      assert InIndex(s, t, LicenseOf(s.keys[t].value).value);
    }
  }

  lemma LicenseOfEncoded(license: string, revision: nat, binding: string)
    requires '|' !in license
    ensures LicenseOf(Encode(license, revision, binding)) == Some(license)
    ensures RevisionText(Encode(license, revision, binding)) == Some(Decimal(revision))
    ensures LuaSplit(Encode(license, revision, binding)) == Fields(license, Decimal(revision), binding)
  {
    SplitReadsBack(license, revision, binding);
  }

  /** Dropping members of one index together with their keys. */
  lemma TakingOutKeepsIndex(s: Store, license: string, out: set<string>)
    requires Indexed(s) && out <= Members(s.indexes, license)
    ensures Indexed(TakenOut(s, license, out))
  {
    var r := TakenOut(s, license, out);
    forall t | t in r.keys
      ensures LicenseOf(r.keys[t].value).Some? && InIndex(r, t, LicenseOf(r.keys[t].value).value)
    {
      var l := LicenseOf(s.keys[t].value).value;
      assert InIndex(s, t, l);
      if l == license {
        assert t in Members(s.indexes, license) - out;
      }
    }
  }

  /** Writing a key and its index entry with the latest expiry so far. */
  lemma TouchKeepsIndex(s: Store, license: string, token: string, value: string, expiresAt: int)
    requires Indexed(s) && LicenseOf(value) == Some(license)
    requires forall t | t in s.keys :: s.keys[t].expiresAt <= expiresAt
    requires forall l | token in Members(s.indexes, l) :: l == license
    ensures Indexed(Store(s.keys[token := Entry(value, expiresAt)],
                          Touch(s.indexes, license, token, expiresAt)))
  {
    var r := Store(s.keys[token := Entry(value, expiresAt)], Touch(s.indexes, license, token, expiresAt));
    forall t | t in r.keys
      ensures LicenseOf(r.keys[t].value).Some? && InIndex(r, t, LicenseOf(r.keys[t].value).value)
    {
      if t != token {
        assert InIndex(s, t, LicenseOf(s.keys[t].value).value);
      }
    }
    forall l, t | l in r.indexes && t in r.indexes[l].members && t in r.keys
      ensures LicenseOf(r.keys[t].value) == Some(l)
    {
      if l != license {
        assert t in Members(s.indexes, l);
      }
    }
  }

  lemma RegisterKeepsIndex(s: Store, license: string, revision: nat, binding: string,
                           token: string, maximum: int, now: int)
    requires Indexed(s) && Bounded(s, now) && Fresh(s, token) && '|' !in license
    ensures Indexed(Register(s, license, revision, binding, token, maximum, now).0)
  {
    ExpiryKeepsIndex(s, now);
    var live := At(s, now);
    var members := Members(live.indexes, license);
    var kept := WithRevision(live, members, Decimal(revision));
    TakingOutKeepsIndex(live, license, members - kept);
    assert members - (members - kept) == kept;
    LicenseOfEncoded(license, revision, binding);
    forall l ensures token !in Members(TakenOut(live, license, members - kept).indexes, l) {
      assert token !in Members(s.indexes, l);
    }
    TouchKeepsIndex(TakenOut(live, license, members - kept), license, token,
                    Encode(license, revision, binding), now + SESSION_TTL_MS);
  }

  lemma RefreshKeepsIndex(s: Store, token: string, binding: string, now: int)
    requires Indexed(s) && Bounded(s, now)
    ensures Indexed(Refresh(s, token, binding, now).0)
  {
    ExpiryKeepsIndex(s, now);
    var live := At(s, now);
    if Bound(live, token, binding).Some? {
      TouchKeepsIndex(live, LuaSplit(live.keys[token].value).license, token,
                      live.keys[token].value, now + SESSION_TTL_MS);
    }
  }

  lemma RemoveKeepsIndex(s: Store, token: string, binding: string, now: int)
    requires Indexed(s)
    ensures Indexed(Remove(s, token, binding, now).0)
  {
    ExpiryKeepsIndex(s, now);
    var live := At(s, now);
    if Bound(live, token, binding).Some? {
      var license := LuaSplit(live.keys[token].value).license;
      assert InIndex(live, token, license);
      TakingOutKeepsIndex(live, license, {token});
    }
  }

  lemma RemoveAllKeepsIndex(s: Store, license: string, minimum: Option<nat>, now: int)
    requires Indexed(s)
    ensures Indexed(RemoveAll(s, license, minimum, now).0)
  {
    ExpiryKeepsIndex(s, now);
    var live := At(s, now);
    TakingOutKeepsIndex(live, license, Gone(live, license, minimum));
  }

  // ---------------------------------------------------------------- what each script does to keys and indexes

  /** The live sessions of a license that carry this revision, counted from the keys. */
  ghost function CurrentSessions(s: Store, license: string, revision: nat, now: int): set<string>
  {
    set t | t in s.keys && now < s.keys[t].expiresAt
            && LicenseOf(s.keys[t].value) == Some(license)
            && RevisionText(s.keys[t].value) == Some(Decimal(revision))
  }

  lemma KeptAreCurrent(s: Store, license: string, revision: nat, now: int)
    requires Indexed(s)
    ensures WithRevision(At(s, now), Members(At(s, now).indexes, license), Decimal(revision))
         == CurrentSessions(s, license, revision, now)
  {
    ExpiryKeepsIndex(s, now);
    var live := At(s, now);
    forall t | t in CurrentSessions(s, license, revision, now) ensures t in Members(live.indexes, license) {
      assert t in live.keys && InIndex(live, t, license);
    }
  }

  /** A registration is refused exactly when a positive maximum is reached by the sessions of this license and revision. */
  lemma RegisterRefusesIff(s: Store, license: string, revision: nat, binding: string, token: string,
                           maximum: int, now: int)
    requires Indexed(s)
    ensures Register(s, license, revision, binding, token, maximum, now).1
       <==> (maximum > 0 ==> |CurrentSessions(s, license, revision, now)| < maximum)
  {
    KeptAreCurrent(s, license, revision, now);
  }

  /** The sessions of this license under other revisions, which registering deletes. */
  ghost predicate Outdated(value: string, license: string, revision: nat)
  {
    LicenseOf(value) == Some(license) && RevisionText(value) != Some(Decimal(revision))
  }

  /**
   Registering deletes the license's sessions of other revisions and, if there is room, stores
   this one for 45 seconds; every other live session stays as it is.
   */
  lemma RegisterIsExact(s: Store, license: string, revision: nat, binding: string, token: string,
                        maximum: int, now: int)
    requires Indexed(s)
    ensures
      var (after, registered) := Register(s, license, revision, binding, token, maximum, now);
      && (registered ==> token in after.keys
                         && after.keys[token] == Entry(Encode(license, revision, binding), now + 45_000))
      && (forall t :: (t in after.keys && !(registered && t == token)) <==>
            t in s.keys && now < s.keys[t].expiresAt && !Outdated(s.keys[t].value, license, revision)
            && !(registered && t == token))
      && (forall t | t in after.keys && !(registered && t == token) :: after.keys[t] == s.keys[t])
  {
    ExpiryKeepsIndex(s, now);
    var live := At(s, now);
    forall t | t in live.keys
      ensures Outdated(s.keys[t].value, license, revision)
         <==> t in Members(live.indexes, license)
              && t !in WithRevision(live, Members(live.indexes, license), Decimal(revision))
    {
      assert InIndex(live, t, LicenseOf(live.keys[t].value).value);
    }
  }

  /** The index set afterwards: the sessions counted and, if there is room, this one, for as long as it lives. */
  lemma RegisterIndexIsExact(s: Store, license: string, revision: nat, binding: string, token: string,
                             maximum: int, now: int)
    requires Indexed(s)
    ensures
      var (after, registered) := Register(s, license, revision, binding, token, maximum, now);
      && Members(after.indexes, license)
         == CurrentSessions(s, license, revision, now) + (if registered then {token} else {})
      && (registered ==> license in after.indexes && after.indexes[license].expiresAt == now + 45_000)
  {
    KeptAreCurrent(s, license, revision, now);
    var live := At(s, now);
    var kept := CurrentSessions(s, license, revision, now);
    assert Members(Keep(live.indexes, license, kept), license) == kept;
  }

  /** Refreshing is accepted exactly for a live session under its own binding, and extends that one to 45 seconds. */
  lemma RefreshIsExact(s: Store, token: string, binding: string, now: int)
    requires Indexed(s)
    ensures
      var (after, reply) := Refresh(s, token, binding, now);
      var accepted := token in s.keys && now < s.keys[token].expiresAt
                      && LuaSplit(s.keys[token].value).binding == binding;
      && (reply.Some? <==> accepted)
      && (forall t :: t in after.keys <==> t in s.keys && now < s.keys[t].expiresAt)
      && (forall t | t in after.keys ::
            after.keys[t]
            == Entry(s.keys[t].value, if accepted && t == token then now + 45_000 else s.keys[t].expiresAt))
  {
    if token in s.keys {
      assert LicenseOf(s.keys[token].value).Some?;
    }
  }

  /** Removing takes out exactly the caller's own live session. */
  lemma RemoveIsExact(s: Store, token: string, binding: string, now: int)
    requires Indexed(s)
    ensures
      var (after, reply) := Remove(s, token, binding, now);
      var accepted := token in s.keys && now < s.keys[token].expiresAt
                      && LuaSplit(s.keys[token].value).binding == binding;
      && (reply.Some? <==> accepted)
      && (forall t :: t in after.keys <==> t in s.keys && now < s.keys[t].expiresAt && !(accepted && t == token))
      && (forall t | t in after.keys :: after.keys[t] == s.keys[t])
  {
    if token in s.keys {
      assert LicenseOf(s.keys[token].value).Some?;
    }
  }

  /** The revision a stored value carries, if it can be read. */
  function RevisionOf(value: string): Option<nat>
  {
    match LuaSplit(value)
    case Malformed => None
    case Fields(_, revision, _) => ParseDecimal(revision)
  }

  /**
   The cleanup deletes the license's live sessions, all of them or, given a minimum, those whose
   revision is lower or unreadable, and answers with their number.
   */
  lemma RemoveAllIsExact(s: Store, license: string, minimum: Option<nat>, now: int)
    requires Indexed(s)
    ensures
      var (after, removed) := RemoveAll(s, license, minimum, now);
      var doomed := set t | t in s.keys && now < s.keys[t].expiresAt && LicenseOf(s.keys[t].value) == Some(license)
                            && (minimum.None? || RevisionOf(s.keys[t].value).None?
                                || RevisionOf(s.keys[t].value).value < minimum.value);
      && removed == |doomed|
      && (forall t :: t in after.keys <==> t in s.keys && now < s.keys[t].expiresAt && t !in doomed)
      && (forall t | t in after.keys :: after.keys[t] == s.keys[t])
  {
    ExpiryKeepsIndex(s, now);
    var live := At(s, now);
    var doomed := set t | t in s.keys && now < s.keys[t].expiresAt && LicenseOf(s.keys[t].value) == Some(license)
                          && (minimum.None? || RevisionOf(s.keys[t].value).None?
                              || RevisionOf(s.keys[t].value).value < minimum.value);
    forall t | t in live.keys ensures t in doomed <==> t in Doomed(live, license, minimum) {
      assert InIndex(live, t, LicenseOf(live.keys[t].value).value);
    }
    assert doomed == Doomed(live, license, minimum);
  }

  // ---------------------------------------------------------------- runs of scripts

  datatype Call =
    | CallRegister(license: string, revision: nat, binding: string, token: string, maximum: int)
    | CallRefresh(token: string, binding: string)
    | CallRemove(token: string, binding: string)
    | CallRemoveAll(license: string, minimum: Option<nat>)

  datatype Timed = Timed(call: Call, now: int)

  function Apply(s: Store, c: Timed): Store
  {
    match c.call
    case CallRegister(license, revision, binding, token, maximum) =>
      Register(s, license, revision, binding, token, maximum, c.now).0
    case CallRefresh(token, binding) => Refresh(s, token, binding, c.now).0
    case CallRemove(token, binding) => Remove(s, token, binding, c.now).0
    case CallRemoveAll(license, minimum) => RemoveAll(s, license, minimum, c.now).0
  }

  function Run(calls: seq<Timed>): Store
  {
    if calls == [] then Store(map[], map[])
    else Apply(Run(calls[..|calls| - 1]), calls[|calls| - 1])
  }

  /** Clocks that do not go back, tokens drawn once, license IDs without the separator. */
  ghost predicate Possible(calls: seq<Timed>)
  {
    && (forall i, j | 0 <= i < j < |calls| :: calls[i].now <= calls[j].now)
    && (forall i, j | 0 <= i < j < |calls| && calls[i].call.CallRegister? && calls[j].call.CallRegister? ::
          calls[i].call.token != calls[j].call.token)
    && (forall i | 0 <= i < |calls| && calls[i].call.CallRegister? :: '|' !in calls[i].call.license)
  }

  /** The token a call draws, if it registers a session. */
  function Drawn(c: Timed): set<string>
  {
    if c.call.CallRegister? then {c.call.token} else {}
  }

  function Tokens(calls: seq<Timed>): set<string>
  {
    if calls == [] then {} else Tokens(calls[..|calls| - 1]) + Drawn(calls[|calls| - 1])
  }

  lemma RefreshKeepsMembers(s: Store, token: string, binding: string, now: int, license: string)
    requires Indexed(s)
    ensures Members(Refresh(s, token, binding, now).0.indexes, license) == Members(At(s, now).indexes, license)
  {
    var live := At(s, now);
    ExpiryKeepsIndex(s, now);
    if Bound(live, token, binding).Some? {
      var l := LuaSplit(live.keys[token].value).license;
      assert InIndex(live, token, l);
      assert Members(live.indexes, l) + {token} == Members(live.indexes, l);
    }
  }

  lemma KeepShrinks(indexes: map<string, Index>, license: string, kept: set<string>, other: string)
    requires kept <= Members(indexes, license)
    ensures Members(Keep(indexes, license, kept), other) <= Members(indexes, other)
  {
  }

  lemma RegisterKeys(s: Store, c: Timed)
    requires c.call.CallRegister?
    ensures Apply(s, c).keys.Keys <= s.keys.Keys + Drawn(c)
  {
  }

  lemma TouchMembers(indexes: map<string, Index>, license: string, member: string, expiresAt: int, other: string)
    ensures Members(Touch(indexes, license, member, expiresAt), other) <= Members(indexes, other) + {member}
  {
  }

  lemma RegisterMembers(s: Store, c: Timed, license: string)
    requires c.call.CallRegister?
    ensures Members(Apply(s, c).indexes, license) <= Members(s.indexes, license) + Drawn(c)
  {
    var live := At(s, c.now);
    var l := c.call.license;
    var kept := WithRevision(live, Members(live.indexes, l), Decimal(c.call.revision));
    KeepShrinks(live.indexes, l, kept, license);
    TouchMembers(Keep(live.indexes, l, kept), l, c.call.token, c.now + SESSION_TTL_MS, license);
    assert Members(live.indexes, license) <= Members(s.indexes, license);
  }

  lemma RemovalMembers(s: Store, c: Timed, license: string)
    requires c.call.CallRemove? || c.call.CallRemoveAll?
    ensures Members(Apply(s, c).indexes, license) <= Members(s.indexes, license)
    ensures Apply(s, c).keys.Keys <= s.keys.Keys
  {
    var live := At(s, c.now);
    if c.call.CallRemove? {
      if Bound(live, c.call.token, c.call.binding).Some? {
        var l := LuaSplit(live.keys[c.call.token].value).license;
        KeepShrinks(live.indexes, l, Members(live.indexes, l) - {c.call.token}, license);
      }
    } else {
      var l := c.call.license;
      KeepShrinks(live.indexes, l,
                  Members(live.indexes, l) - Gone(live, l, c.call.minimum), license);
    }
  }

  /** The only member or key a script can add is the token it draws. */
  lemma ApplyMembers(s: Store, c: Timed, license: string)
    requires Indexed(s)
    ensures Members(Apply(s, c).indexes, license) <= Members(s.indexes, license) + Drawn(c)
    ensures Apply(s, c).keys.Keys <= s.keys.Keys + Drawn(c)
  {
    if c.call.CallRegister? {
      RegisterMembers(s, c, license);
      RegisterKeys(s, c);
    } else if c.call.CallRefresh? {
      RefreshKeepsMembers(s, c.call.token, c.call.binding, c.now, license);
    } else {
      RemovalMembers(s, c, license);
    }
  }

  /** No key and no index member outside the given tokens. */
  ghost predicate Known(s: Store, tokens: set<string>)
  {
    s.keys.Keys <= tokens && forall l :: Members(s.indexes, l) <= tokens
  }

  lemma ApplyKnows(s: Store, c: Timed, tokens: set<string>)
    requires Known(s, tokens) && Indexed(s)
    ensures Known(Apply(s, c), tokens + Drawn(c))
  {
    forall l ensures Members(Apply(s, c).indexes, l) <= tokens + Drawn(c) {
      ApplyMembers(s, c, l);
    }
    ApplyMembers(s, c, "");
  }

  lemma ApplyBounded(s: Store, c: Timed)
    requires Bounded(s, c.now)
    ensures Bounded(Apply(s, c), c.now)
  {
  }

  /** One script keeps the index in step with the keys. */
  lemma ApplyKeepsIndex(s: Store, c: Timed)
    requires Indexed(s) && Bounded(s, c.now)
    requires c.call.CallRegister? ==> Fresh(s, c.call.token) && '|' !in c.call.license
    ensures Indexed(Apply(s, c))
  {
    match c.call {
      case CallRegister(license, revision, binding, token, maximum) =>
        RegisterKeepsIndex(s, license, revision, binding, token, maximum, c.now);
      case CallRefresh(token, binding) =>
        RefreshKeepsIndex(s, token, binding, c.now);
      case CallRemove(token, binding) =>
        RemoveKeepsIndex(s, token, binding, c.now);
      case CallRemoveAll(license, minimum) =>
        RemoveAllKeepsIndex(s, license, minimum, c.now);
    }
  }

  lemma {:induction false} TokensAreDrawn(calls: seq<Timed>, token: string)
    requires token in Tokens(calls)
    ensures exists i | 0 <= i < |calls| :: calls[i].call.CallRegister? && calls[i].call.token == token
  {
    var n := |calls| - 1;
    if token in Drawn(calls[n]) {
      assert calls[n].call.token == token;
    } else {
      TokensAreDrawn(calls[..n], token);
      var i :| 0 <= i < n && calls[..n][i].call.CallRegister? && calls[..n][i].call.token == token;
      assert calls[i].call.token == token;
    }
  }

  /** In every reachable state the index agrees with the keys and outlives them. */
  lemma {:induction false} RunStaysIndexed(calls: seq<Timed>)
    requires Possible(calls)
    ensures Indexed(Run(calls)) && Known(Run(calls), Tokens(calls))
    ensures calls != [] ==> Bounded(Run(calls), calls[|calls| - 1].now)
  {
    if calls != [] {
      var n := |calls| - 1;
      var front, c := calls[..n], calls[n];
      RunStaysIndexed(front);
      var s := Run(front);
      assert Bounded(s, c.now);
      if c.call.CallRegister? && c.call.token in Tokens(front) {
        TokensAreDrawn(front, c.call.token);
      }
      ApplyKeepsIndex(s, c);
      ApplyBounded(s, c);
      ApplyKnows(s, c, Tokens(front));
    }
  }

  /**
   In every run a registration is refused if and only if the maximum is positive and at least that
   many live keys of this license carry this revision at that moment.
   */
  lemma RunRegistersIff(calls: seq<Timed>, license: string, revision: nat, binding: string, token: string,
                        maximum: int, now: int)
    requires Possible(calls)
    ensures Register(Run(calls), license, revision, binding, token, maximum, now).1
       <==> (maximum > 0 ==> |CurrentSessions(Run(calls), license, revision, now)| < maximum)
  {
    RunStaysIndexed(calls);
    RegisterRefusesIff(Run(calls), license, revision, binding, token, maximum, now);
  }

  /** The live sessions of one license. */
  ghost function Sessions(s: Store, license: string, now: int): set<string>
  {
    set t | t in At(s, now).keys && LicenseOf(s.keys[t].value) == Some(license)
  }

  lemma RegisterBoundsIndex(s: Store, c: Timed, license: string, m: nat)
    requires c.call.CallRegister? && m > 0 && |Members(s.indexes, license)| <= m
    requires c.call.license == license ==> c.call.maximum == m
    ensures |Members(Apply(s, c).indexes, license)| <= m
  {
    var live := At(s, c.now);
    SubsetSize(Members(live.indexes, license), Members(s.indexes, license));
    if c.call.license == license {
      var kept := WithRevision(live, Members(live.indexes, license), Decimal(c.call.revision));
      SubsetSize(kept, Members(live.indexes, license));
      assert Members(Keep(live.indexes, license, kept), license) == kept;
    }
  }

  /** One script leaves the index of a license no larger than before, or within its maximum. */
  lemma ApplyBoundsIndex(s: Store, c: Timed, license: string, m: nat)
    requires Indexed(s) && m > 0 && |Members(s.indexes, license)| <= m
    requires c.call.CallRegister? && c.call.license == license ==> c.call.maximum == m
    ensures |Members(Apply(s, c).indexes, license)| <= m
  {
    if c.call.CallRegister? {
      RegisterBoundsIndex(s, c, license, m);
    } else {
      ApplyMembers(s, c, license);
      SubsetSize(Members(Apply(s, c).indexes, license), Members(s.indexes, license));
    }
  }

  lemma {:induction false} RunBoundsIndex(calls: seq<Timed>, license: string, m: nat)
    requires Possible(calls) && m > 0
    requires forall i | 0 <= i < |calls| && calls[i].call.CallRegister? && calls[i].call.license == license ::
               calls[i].call.maximum == m
    ensures |Members(Run(calls).indexes, license)| <= m
  {
    if calls != [] {
      var n := |calls| - 1;
      RunBoundsIndex(calls[..n], license, m);
      RunStaysIndexed(calls[..n]);
      ApplyBoundsIndex(Run(calls[..n]), calls[n], license, m);
    }
  }

  /** With a fixed positive maximum a license never has more live sessions than that. */
  lemma SessionCap(calls: seq<Timed>, license: string, m: nat, now: int)
    requires Possible(calls) && m > 0
    requires forall i | 0 <= i < |calls| && calls[i].call.CallRegister? && calls[i].call.license == license ::
               calls[i].call.maximum == m
    ensures |Sessions(Run(calls), license, now)| <= m
  {
    RunStaysIndexed(calls);
    RunBoundsIndex(calls, license, m);
    var s := Run(calls);
    forall t | t in Sessions(s, license, now) ensures t in Members(s.indexes, license) {
      assert InIndex(s, t, license);
    }
    SubsetSize(Sessions(s, license, now), Members(s.indexes, license));
  }
}
