/**
 The Redis side of a session: one key per token, one index set per license, and the four
 Lua scripts that keep them in step. Each script is first a function from store to store,
 and then the loop that Redis runs, proved to compute that function.
 */
module SessionStore {
  import opened Wrappers
  import opened SessionCodec

  const SESSION_TTL_MS: int := 45_000

  datatype Entry = Entry(value: string, expiresAt: int)

  /** Redis deletes a set together with its last member, so no stored set is empty. */
  type Tokens = s: set<string> | s != {} witness {""}

  datatype Index = Index(members: Tokens, expiresAt: int)

  /** Session keys by token and index sets by license ID. */
  datatype Store = Store(keys: map<string, Entry>, indexes: map<string, Index>)

  /** What is left of a store once everything whose expiry has passed is gone. */
  function At(s: Store, now: int): Store
  {
    Store(map t | t in s.keys && now < s.keys[t].expiresAt :: s.keys[t],
          map l | l in s.indexes && now < s.indexes[l].expiresAt :: s.indexes[l])
  }

  function Members(indexes: map<string, Index>, license: string): set<string>
  {
    if license in indexes then indexes[license].members else {}
  }

  /** `SREM` down to the given members; an empty set takes its key and expiry with it. */
  function Keep(indexes: map<string, Index>, license: string, members: set<string>): map<string, Index>
  {
    if license !in indexes then indexes
    else if members == {} then indexes - {license}
    else indexes[license := Index(members, indexes[license].expiresAt)]
  }

  lemma KeepAll(indexes: map<string, Index>, license: string)
    ensures Keep(indexes, license, Members(indexes, license)) == indexes
  {
    if license in indexes {
      assert Index(indexes[license].members, indexes[license].expiresAt) == indexes[license];
    }
  }

  /** `SADD` of one member followed by `EXPIRE`. */
  function Touch(indexes: map<string, Index>, license: string, member: string, expiresAt: int): map<string, Index>
  {
    var members := Members(indexes, license) + {member};
    assert member in members;
    indexes[license := Index(members, expiresAt)]
  }

  function RevisionText(value: string): Option<string>
  {
    match LuaSplit(value)
    case Malformed => None
    case Fields(_, revision, _) => Some(revision)
  }

  function LicenseOf(value: string): Option<string>
  {
    match LuaSplit(value)
    case Malformed => None
    case Fields(license, _, _) => Some(license)
  }

  // ---------------------------------------------------------------- the scripts as functions

  /** The members whose keys exist and carry this revision text. */
  function WithRevision(s: Store, members: set<string>, revision: string): set<string>
  {
    set m | m in members && m in s.keys && RevisionText(s.keys[m].value) == Some(revision)
  }

  function Register(s: Store, license: string, revision: nat, binding: string,
                    token: string, maximum: int, now: int): (Store, bool)
  {
    var live := At(s, now);
    var kept := WithRevision(live, Members(live.indexes, license), Decimal(revision));
    var keys := live.keys - (Members(live.indexes, license) - kept);
    var indexes := Keep(live.indexes, license, kept);
    if maximum > 0 && |kept| >= maximum then (Store(keys, indexes), false)
    else
      (Store(keys[token := Entry(Encode(license, revision, binding), now + SESSION_TTL_MS)],
             Touch(indexes, license, token, now + SESSION_TTL_MS)), true)
  }

  /** The stored fields of a token, if its key is there and bound to the caller. */
  function Bound(s: Store, token: string, binding: string): Option<Split>
  {
    if token !in s.keys then None
    else
      var split := LuaSplit(s.keys[token].value);
      if split.Malformed? || split.binding != binding then None else Some(split)
  }

  function Refresh(s: Store, token: string, binding: string, now: int): (Store, Option<string>)
  {
    var live := At(s, now);
    match Bound(live, token, binding)
    case None => (live, None)
    case Some(split) =>
      if split.Malformed? then (live, None)
      else
        (Store(live.keys[token := Entry(live.keys[token].value, now + SESSION_TTL_MS)],
               Touch(live.indexes, split.license, token, now + SESSION_TTL_MS)),
         Some(Reply(split.license, split.revision)))
  }

  function Remove(s: Store, token: string, binding: string, now: int): (Store, Option<string>)
  {
    var live := At(s, now);
    match Bound(live, token, binding)
    case None => (live, None)
    case Some(split) =>
      if split.Malformed? then (live, None)
      else
        (Store(live.keys - {token},
               Keep(live.indexes, split.license, Members(live.indexes, split.license) - {token})),
         Some(Reply(split.license, split.revision)))
  }

  /** Without a minimum everything goes; with one, malformed values and older revisions. */
  predicate ShouldRemove(value: string, minimum: Option<nat>)
  {
    minimum.None?
    || RevisionText(value).None?
    || ParseDecimal(RevisionText(value).value).None?
    || ParseDecimal(RevisionText(value).value).value < minimum.value
  }

  function Doomed(s: Store, license: string, minimum: Option<nat>): set<string>
  {
    set m | m in Members(s.indexes, license) && m in s.keys && ShouldRemove(s.keys[m].value, minimum)
  }

  function Missing(s: Store, license: string): set<string>
  {
    set m | m in Members(s.indexes, license) && m !in s.keys
  }

  function Gone(s: Store, license: string, minimum: Option<nat>): set<string>
  {
    Doomed(s, license, minimum) + Missing(s, license)
  }

  function RemoveAll(s: Store, license: string, minimum: Option<nat>, now: int): (Store, nat)
  {
    var live := At(s, now);
    var gone := Gone(live, license, minimum);
    (Store(live.keys - gone,
           Keep(live.indexes, license, Members(live.indexes, license) - gone)),
     |Doomed(live, license, minimum)|)
  }

  // ---------------------------------------------------------------- the scripts as loops

  lemma OneFewerPending(chosen: set<string>, pending: set<string>, member: string)
    requires member in pending
    ensures chosen - (pending - {member})
         == if member in chosen then chosen - pending + {member} else chosen - pending
    ensures |chosen - (pending - {member})| == |chosen - pending| + (if member in chosen then 1 else 0)
  {
    assert member !in chosen - pending;
  }

  /** A store without the given members of one index and without their keys. */
  ghost function TakenOut(s: Store, license: string, out: set<string>): Store
  {
    Store(s.keys - out, Keep(s.indexes, license, Members(s.indexes, license) - out))
  }

  lemma TakenNone(s: Store, license: string)
    ensures TakenOut(s, license, {}) == s
  {
    assert Members(s.indexes, license) - {} == Members(s.indexes, license);
    KeepAll(s.indexes, license);
    assert s.keys - {} == s.keys;
  }

  lemma NoneVisited(s: Store, license: string, chosen: set<string>, pending: set<string>)
    requires chosen <= pending
    ensures chosen - pending == {}
    ensures TakenOut(s, license, chosen - pending) == s
  {
    assert chosen - pending == {};
    TakenNone(s, license);
  }

  lemma TakenOneMore(s: Store, license: string, out: set<string>, member: string)
    requires member in Members(s.indexes, license) && member !in out
    ensures var t := TakenOut(s, license, out);
            TakenOut(s, license, out + {member}) == Store(t.keys - {member},
                     Keep(t.indexes, license, Members(t.indexes, license) - {member}))
    ensures member in TakenOut(s, license, out).keys <==> member in s.keys
    ensures member in s.keys ==> TakenOut(s, license, out).keys[member] == s.keys[member]
    ensures member !in s.keys ==> TakenOut(s, license, out).keys - {member} == TakenOut(s, license, out).keys
  {
    var members := Members(s.indexes, license);
    assert member in members - out;
    assert members - (out + {member}) == members - out - {member};
    assert s.keys - (out + {member}) == s.keys - out - {member};
  }

  /** The Redis keyspace the repository sends its scripts to. */
  class RedisSessions {
    var keys: map<string, Entry>
    var indexes: map<string, Index>

    ghost function Contents(): Store
      reads this
    {
      Store(keys, indexes)
    }

    constructor ()
      ensures Contents() == Store(map[], map[])
    {
      keys, indexes := map[], map[];
    }

    /** Redis drops whatever has expired before a script can see it. */
    method DropExpired(now: int)
      modifies this
      ensures Contents() == At(old(Contents()), now)
    {
      keys := map t | t in keys && now < keys[t].expiresAt :: keys[t];
      indexes := map l | l in indexes && now < indexes[l].expiresAt :: indexes[l];
    }

    /** `SREM` of one member. */
    method RemoveMember(license: string, member: string)
      modifies this`indexes
      ensures indexes == Keep(old(indexes), license, Members(old(indexes), license) - {member})
    {
      if license in indexes {
        var rest := indexes[license].members - {member};
        if rest == {} {
          indexes := indexes - {license};
        } else {
          indexes := indexes[license := Index(rest, indexes[license].expiresAt)];
        }
      }
    }

    /** The first loop of register: drop index members without a key of this revision. */
    method PurgeOtherRevisions(license: string, revision: string)
      modifies this
      ensures var live := old(Contents());
              var members := Members(live.indexes, license);
              Contents() == TakenOut(live, license, members - WithRevision(live, members, revision))
    {
      ghost var live := Contents();
      var members := Members(indexes, license);
      ghost var kept := WithRevision(live, members, revision);
      ghost var out: set<string> := {};
      var pending := members;
      TakenNone(live, license);
      while pending != {}
        invariant pending <= members && out <= members && pending !! out
        invariant forall m | m in members - pending :: m in out <==> m !in kept
        invariant Contents() == TakenOut(live, license, out)
        decreases pending
      {
        var member :| member in pending;
        pending := pending - {member};
        TakenOneMore(live, license, out, member);
        if member !in keys || RevisionText(keys[member].value) != Some(revision) {
          out := out + {member};
          keys := keys - {member};
          RemoveMember(license, member);
        }
      }
      assert out == members - kept;
    }

    method RegisterSession(license: string, revision: nat, binding: string,
                           token: string, maximum: int, now: int) returns (registered: bool)
      modifies this
      ensures (Contents(), registered)
           == Register(old(Contents()), license, revision, binding, token, maximum, now)
    {
      DropExpired(now);
      ghost var live := Contents();
      ghost var members := Members(indexes, license);
      ghost var kept := WithRevision(live, members, Decimal(revision));
      PurgeOtherRevisions(license, Decimal(revision));
      assert members - (members - kept) == kept;
      assert Members(indexes, license) == kept;
      if maximum > 0 && |Members(indexes, license)| >= maximum {
        return false;
      }
      keys := keys[token := Entry(Encode(license, revision, binding), now + SESSION_TTL_MS)];
      indexes := Touch(indexes, license, token, now + SESSION_TTL_MS);
      return true;
    }

    method RefreshSession(token: string, binding: string, now: int) returns (reply: Option<string>)
      modifies this
      ensures (Contents(), reply) == Refresh(old(Contents()), token, binding, now)
    {
      DropExpired(now);
      if token !in keys {
        return None;
      }
      var split := LuaSplit(keys[token].value);
      if split.Malformed? || split.binding != binding {
        return None;
      }
      keys := keys[token := Entry(keys[token].value, now + SESSION_TTL_MS)];
      indexes := Touch(indexes, split.license, token, now + SESSION_TTL_MS);
      return Some(Reply(split.license, split.revision));
    }

    method RemoveSession(token: string, binding: string, now: int) returns (reply: Option<string>)
      modifies this
      ensures (Contents(), reply) == Remove(old(Contents()), token, binding, now)
    {
      DropExpired(now);
      if token !in keys {
        return None;
      }
      var split := LuaSplit(keys[token].value);
      if split.Malformed? || split.binding != binding {
        return None;
      }
      RemoveMember(split.license, token);
      keys := keys - {token};
      return Some(Reply(split.license, split.revision));
    }

    method RemoveAllSessions(license: string, minimum: Option<nat>, now: int) returns (removed: nat)
      modifies this
      ensures (Contents(), removed) == RemoveAll(old(Contents()), license, minimum, now)
    {
      DropExpired(now);
      removed := RemoveOlder(license, minimum);
    }

    /** The body of the loop of removeAll, for one member of those not visited yet. */
    method RemoveIfOlder(license: string, member: string, minimum: Option<nat>, ghost live: Store,
                         ghost pending: set<string>)
      returns (deleted: bool)
      requires member in pending && member in Members(live.indexes, license)
      requires Contents() == TakenOut(live, license, Gone(live, license, minimum) - pending)
      modifies this
      ensures deleted == (member in Doomed(live, license, minimum))
      ensures Contents() == TakenOut(live, license, Gone(live, license, minimum) - (pending - {member}))
    {
      ghost var gone := Gone(live, license, minimum);
      TakenOneMore(live, license, gone - pending, member);
      OneFewerPending(gone, pending, member);
      deleted := false;
      if member !in keys {
        RemoveMember(license, member);
      } else if ShouldRemove(keys[member].value, minimum) {
        keys := keys - {member};
        deleted := true;
        RemoveMember(license, member);
      }
    }

    /** The loop of removeAll over the members of one index. */
    method RemoveOlder(license: string, minimum: Option<nat>) returns (removed: nat)
      modifies this
      ensures Contents() == TakenOut(old(Contents()), license, Gone(old(Contents()), license, minimum))
      ensures removed == |Doomed(old(Contents()), license, minimum)|
    {
      ghost var live := Contents();
      ghost var gone := Gone(live, license, minimum);
      ghost var doomed := Doomed(live, license, minimum);
      var pending := Members(indexes, license);
      removed := 0;
      NoneVisited(live, license, gone, pending);
      NoneVisited(live, license, doomed, pending);
      while pending != {}
        invariant pending <= Members(live.indexes, license)
        invariant Contents() == TakenOut(live, license, gone - pending)
        invariant removed == |doomed - pending|
        decreases pending
      {
        var member :| member in pending;
        var deleted := RemoveIfOlder(license, member, minimum, live, pending);
        OneFewerPending(doomed, pending, member);
        pending := pending - {member};
        if deleted {
          removed := removed + 1;
        }
      }
      assert gone - pending == gone;
      assert doomed - pending == doomed;
    }
  }
}
