/**
 One license's meters and its append-only usage ledger. Every operation runs under the
 license's meter lock, so it is one atomic step; the ledger keeps the commit order.
 */
module MeterLedger {
  import opened Wrappers

  /** The largest value of PostgreSQL's four-byte integer. */
  const MAX_LICENSE_LIMIT: int := 2_147_483_647

  datatype Meter = Meter(balance: int, archived: bool)

  /**
   Ledger entries of consumption carry the digest of the caller's event ID, operator entries
   an identifier of their own. The digest is taken to be injective, and it never has the form
   of an operator identifier.
   */
  datatype EventKey = Digest(eventId: string) | Operator

  datatype Kind = Create | Consume | TopUp | Adjustment | Archive

  datatype Entry = Entry(meter: string, event: EventKey, kind: Kind, delta: int, before: int, after: int)

  /** Meter names are unique and immutable within a license, so they stand for meter IDs. */
  datatype Ledger = Ledger(meters: map<string, Meter>, entries: seq<Entry>)

  datatype NewMeter = NewMeter(name: string, balance: int)

  datatype Outcome =
    | Created
    | AlreadyExists
    | Archived
    | LastActiveMeter
    | Consumed(remaining: int)
    | Replayed(remaining: int)
    | Conflict
    | NotFound
    | IsArchived
    | Exhausted
    | Adjusted(balance: int)
    | OutOfRange
    | Invalid

  /** The outcomes that commit a change. */
  predicate Commits(o: Outcome)
  {
    o.Created? || o.Archived? || o.Consumed? || o.Adjusted?
  }

  predicate InRange(n: int)
  {
    0 <= n <= MAX_LICENSE_LIMIT
  }

  function Active(meters: map<string, Meter>): set<string>
  {
    set name | name in meters && !meters[name].archived
  }

  /** The first entry under this key. */
  function FindEvent(entries: seq<Entry>, key: EventKey): Option<Entry>
  {
    if entries == [] then None
    else if entries[0].event == key then Some(entries[0])
    else FindEvent(entries[1..], key)
  }

  // ---------------------------------------------------------------- operations as functions

  function CreateMeter(l: Ledger, name: string, balance: int): (Ledger, Outcome)
  {
    if !InRange(balance) then (l, Invalid)
    else if name in l.meters then (l, AlreadyExists)
    else
      (Ledger(l.meters[name := Meter(balance, false)],
              l.entries + [Entry(name, Operator, Create, balance, 0, balance)]), Created)
  }

  /** A metered license never loses its last active meter. */
  function ArchiveMeter(l: Ledger, metered: bool, name: string): (Ledger, Outcome)
  {
    if name !in l.meters then (l, NotFound)
    else if l.meters[name].archived then (l, IsArchived)
    else if metered && |Active(l.meters)| == 1 then (l, LastActiveMeter)
    else
      var balance := l.meters[name].balance;
      (Ledger(l.meters[name := Meter(balance, true)],
              l.entries + [Entry(name, Operator, Archive, 0, balance, balance)]), Archived)
  }

  function ConsumeUnits(l: Ledger, name: string, units: int, eventId: string): (Ledger, Outcome)
  {
    if !(1 <= units <= MAX_LICENSE_LIMIT) then (l, Invalid)
    else
      match FindEvent(l.entries, Digest(eventId))
      case Some(entry) =>
        if !entry.kind.Consume? || entry.delta != -units || entry.meter != name then (l, Conflict)
        else (l, Replayed(entry.after))
      case None =>
        if name !in l.meters then (l, NotFound)
        else if l.meters[name].archived then (l, IsArchived)
        else if l.meters[name].balance < units then (l, Exhausted)
        else
          var balance := l.meters[name].balance;
          (Ledger(l.meters[name := Meter(balance - units, false)],
                  l.entries + [Entry(name, Digest(eventId), Consume, -units, balance, balance - units)]),
           Consumed(balance - units))
  }

  function Adjust(l: Ledger, name: string, delta: int, kind: Kind): (Ledger, Outcome)
  {
    if delta == 0 || delta > MAX_LICENSE_LIMIT || -delta > MAX_LICENSE_LIMIT || !(kind.TopUp? || kind.Adjustment?) then
      (l, Invalid)
    else if name !in l.meters then (l, NotFound)
    else if l.meters[name].archived then (l, IsArchived)
    else
      var balance := l.meters[name].balance;
      if (if delta > 0 then balance > MAX_LICENSE_LIMIT - delta else balance < -delta) then (l, OutOfRange)
      else
        (Ledger(l.meters[name := Meter(balance + delta, false)],
                l.entries + [Entry(name, Operator, kind, delta, balance, balance + delta)]),
         Adjusted(balance + delta))
  }

  /** Whether a requested meter clashes with a stored one of the same name. */
  predicate Clashes(meters: map<string, Meter>, m: NewMeter)
  {
    m.name in meters && (meters[m.name].archived || meters[m.name].balance != m.balance)
  }

  /** Meters that come with a license update: those already there unchanged are skipped. */
  function InsertMeters(l: Ledger, wanted: seq<NewMeter>): Option<Ledger>
  {
    if wanted == [] then Some(l)
    else
      match InsertMeters(l, wanted[..|wanted| - 1])
      case None => None
      case Some(front) =>
        var m := wanted[|wanted| - 1];
        if Clashes(front.meters, m) then None
        else if m.name in front.meters then Some(front)
        else Some(Ledger(front.meters[m.name := Meter(m.balance, false)],
                         front.entries + [Entry(m.name, Operator, Create, m.balance, 0, m.balance)]))
  }

  // ---------------------------------------------------------------- operations on the tables

  /** The two tables of one license, updated in place by committed transactions only. */
  class MeterRepository {
    var meters: map<string, Meter>
    var entries: seq<Entry>

    ghost function Contents(): Ledger
      reads this
    {
      Ledger(meters, entries)
    }

    constructor ()
      ensures Contents() == Ledger(map[], [])
    {
      meters, entries := map[], [];
    }

    method Append(entry: Entry)
      modifies this`entries
      ensures entries == old(entries) + [entry]
    {
      entries := entries + [entry];
    }

    method Create(name: string, balance: int) returns (o: Outcome)
      modifies this
      ensures (Contents(), o) == CreateMeter(old(Contents()), name, balance)
    {
      if balance < 0 || balance > MAX_LICENSE_LIMIT {
        return Invalid;
      }
      if name in meters {
        return AlreadyExists;
      }
      meters := meters[name := Meter(balance, false)];
      Append(Entry(name, Operator, Kind.Create, balance, 0, balance));
      return Created;
    }

    method ArchiveOne(metered: bool, name: string) returns (o: Outcome)
      modifies this
      ensures (Contents(), o) == ArchiveMeter(old(Contents()), metered, name)
    {
      if metered {
        var active := Active(meters);
        if name in active && |active| == 1 {
          return LastActiveMeter;
        }
      }
      if name in meters && !meters[name].archived {
        var balance := meters[name].balance;
        meters := meters[name := Meter(balance, true)];
        Append(Entry(name, Operator, Archive, 0, balance, balance));
        return Archived;
      }
      return if name in meters then IsArchived else NotFound;
    }

    method ConsumeOne(name: string, units: int, eventId: string) returns (o: Outcome)
      modifies this
      ensures (Contents(), o) == ConsumeUnits(old(Contents()), name, units, eventId)
      ensures o.Consumed? ==>
                name in old(meters) && !old(meters[name].archived) && old(meters[name].balance) >= units > 0
                && o.remaining == old(meters[name].balance) - units
                && meters == old(meters)[name := Meter(o.remaining, false)]
                && |entries| == |old(entries)| + 1 && entries[|entries| - 1].delta == -units
    {
      if units < 1 || units > MAX_LICENSE_LIMIT {
        return Invalid;
      }
      var existing := FindEvent(entries, Digest(eventId));
      if existing.Some? {
        if existing.value.kind != Consume || existing.value.delta != -units || existing.value.meter != name {
          return Conflict;
        }
        return Replayed(existing.value.after);
      }
      if name !in meters {
        return NotFound;
      }
      if meters[name].archived {
        return IsArchived;
      }
      if meters[name].balance < units {
        return Exhausted;
      }
      meters := meters[name := Meter(meters[name].balance - units, false)];
      var left := meters[name].balance;
      Append(Entry(name, Digest(eventId), Consume, -units, left + units, left));
      return Consumed(left);
    }

    method AdjustOne(name: string, delta: int, kind: Kind) returns (o: Outcome)
      modifies this
      ensures (Contents(), o) == Adjust(old(Contents()), name, delta, kind)
      ensures o.Adjusted? ==>
                name in old(meters) && !old(meters[name].archived)
                && o.balance == old(meters[name].balance) + delta
                && meters == old(meters)[name := Meter(o.balance, false)]
                && |entries| == |old(entries)| + 1 && entries[|entries| - 1].delta == delta
    {
      if delta == 0 || delta > MAX_LICENSE_LIMIT || -delta > MAX_LICENSE_LIMIT || !(kind.TopUp? || kind.Adjustment?) {
        return Invalid;
      }
      if name !in meters {
        return NotFound;
      }
      if meters[name].archived {
        return IsArchived;
      }
      var balance := meters[name].balance;
      var inBounds := if delta > 0 then balance <= MAX_LICENSE_LIMIT - delta else balance >= -delta;
      if !inBounds {
        return OutOfRange;
      }
      meters := meters[name := Meter(balance + delta, false)];
      Append(Entry(name, Operator, kind, delta, meters[name].balance - delta, meters[name].balance));
      return Adjusted(meters[name].balance);
    }

    /** The loop over a license update's meters; a clash rolls the whole transaction back. */
    method InsertNewMeters(wanted: seq<NewMeter>) returns (ok: bool)
      modifies this
      ensures ok <==> InsertMeters(old(Contents()), wanted).Some?
      ensures Contents() == if ok then InsertMeters(old(Contents()), wanted).value else old(Contents())
    {
      ghost var before := Contents();
      var byName, added := meters, entries;
      for i := 0 to |wanted|
        invariant InsertMeters(before, wanted[..i]) == Some(Ledger(byName, added))
        invariant Contents() == before
      {
        assert wanted[..i + 1][..i] == wanted[..i];
        var m := wanted[i];
        if m.name in byName {
          if byName[m.name].archived || byName[m.name].balance != m.balance {
            ClashIsFinal(before, wanted, i + 1);
            return false;
          }
        } else {
          byName := byName[m.name := Meter(m.balance, false)];
          added := added + [Entry(m.name, Operator, Kind.Create, m.balance, 0, m.balance)];
        }
      }
      assert wanted[..|wanted|] == wanted;
      meters, entries := byName, added;
      return true;
    }
  }

  lemma {:induction false} ClashIsFinal(l: Ledger, wanted: seq<NewMeter>, i: nat)
    requires i <= |wanted| && InsertMeters(l, wanted[..i]).None?
    ensures InsertMeters(l, wanted).None?
    decreases |wanted| - i
  {
    if i == |wanted| {
      assert wanted[..i] == wanted;
    } else {
      assert wanted[..i + 1][..i] == wanted[..i];
      ClashIsFinal(l, wanted, i + 1);
    }
  }

  // ---------------------------------------------------------------- runs

  datatype Op =
    | DoCreate(name: string, balance: int)
    | DoArchive(metered: bool, name: string)
    | DoConsume(name: string, units: int, eventId: string)
    | DoAdjust(name: string, delta: int, kind: Kind)
    | DoInsert(wanted: seq<NewMeter>)

  function Apply(l: Ledger, op: Op): (Ledger, Outcome)
  {
    match op
    case DoCreate(name, balance) => CreateMeter(l, name, balance)
    case DoArchive(metered, name) => ArchiveMeter(l, metered, name)
    case DoConsume(name, units, eventId) => ConsumeUnits(l, name, units, eventId)
    case DoAdjust(name, delta, kind) => Adjust(l, name, delta, kind)
    case DoInsert(wanted) =>
      if exists i | 0 <= i < |wanted| :: !InRange(wanted[i].balance) then (l, Invalid)
      else
        match InsertMeters(l, wanted)
        case None => (l, AlreadyExists)
        case Some(after) => (after, Created)
  }

  function RunFrom(l: Ledger, ops: seq<Op>): Ledger
  {
    if ops == [] then l else Apply(RunFrom(l, ops[..|ops| - 1]), ops[|ops| - 1]).0
  }

  const EMPTY := Ledger(map[], [])

  // ---------------------------------------------------------------- conservation

  /** A meter's entries in commit order. */
  function History(entries: seq<Entry>, name: string): seq<Entry>
  {
    if entries == [] then []
    else
      var last := entries[|entries| - 1];
      History(entries[..|entries| - 1], name) + (if last.meter == name then [last] else [])
  }

  function Sum(h: seq<Entry>): int
  {
    if h == [] then 0 else Sum(h[..|h| - 1]) + h[|h| - 1].delta
  }

  /** An entry starts where the one before ended, the first at zero, and moves by its delta within range. */
  ghost predicate Linked(h: seq<Entry>, i: nat)
    requires i < |h|
  {
    && h[i].before == (if i == 0 then 0 else h[i - 1].after)
    && h[i].after == h[i].before + h[i].delta
    && InRange(h[i].after)
    && (h[i].kind.Create? <==> i == 0)
  }

  ghost predicate Chained(h: seq<Entry>)
  {
    forall i | 0 <= i < |h| :: Linked(h, i)
  }

  /** A meter's history is a chain that ends at its balance. */
  ghost predicate AccountOf(l: Ledger, name: string)
    requires name in l.meters
  {
    var h := History(l.entries, name);
    h != [] && Chained(h) && h[|h| - 1].after == l.meters[name].balance
  }

  /** The ledger accounts for every meter, and mentions no other. */
  ghost predicate Accounted(l: Ledger)
  {
    && (forall i | 0 <= i < |l.entries| :: l.entries[i].meter in l.meters)
    && forall name | name in l.meters :: AccountOf(l, name)
  }

  lemma HistoryAppend(entries: seq<Entry>, e: Entry, name: string)
    ensures History(entries + [e], name) == History(entries, name) + (if e.meter == name then [e] else [])
  {
    assert (entries + [e])[..|entries|] == entries;
  }

  lemma {:induction false} NoHistory(entries: seq<Entry>, name: string)
    requires forall i | 0 <= i < |entries| :: entries[i].meter != name
    ensures History(entries, name) == []
  {
    if entries != [] {
      NoHistory(entries[..|entries| - 1], name);
    }
  }

  /** The entry continues its meter's chain from the current balance, or starts it at zero. */
  ghost predicate Continues(l: Ledger, e: Entry)
  {
    && e.after == e.before + e.delta && InRange(e.after)
    && if e.meter in l.meters then e.before == l.meters[e.meter].balance && !e.kind.Create?
       else e.before == 0 && e.kind.Create?
  }

  lemma ChainGrows(h: seq<Entry>, e: Entry)
    requires Chained(h) && e.after == e.before + e.delta && InRange(e.after)
    requires e.before == (if h == [] then 0 else h[|h| - 1].after) && (e.kind.Create? <==> h == [])
    ensures Chained(h + [e])
  {
    forall i | 0 <= i < |h + [e]| ensures Linked(h + [e], i) {
      if i < |h| {
        assert Linked(h, i);
      }
    }
  }

  lemma AppendKeepsOne(l: Ledger, e: Entry, archived: bool, name: string)
    requires Accounted(l) && Continues(l, e) && (name in l.meters || name == e.meter)
    ensures AccountOf(Ledger(l.meters[e.meter := Meter(e.after, archived)], l.entries + [e]), name)
  {
    HistoryAppend(l.entries, e, name);
    var h := History(l.entries, name);
    if name !in l.meters {
      NoHistory(l.entries, name);
    } else {
      assert AccountOf(l, name);
    }
    if name == e.meter {
      ChainGrows(h, e);
    } else {
      assert h + [] == h;
    }
  }

  /** Appending one entry and setting the meter's balance to where it ends. */
  lemma AppendKeepsAccount(l: Ledger, e: Entry, archived: bool)
    requires Accounted(l) && Continues(l, e)
    ensures Accounted(Ledger(l.meters[e.meter := Meter(e.after, archived)], l.entries + [e]))
  {
    var after := Ledger(l.meters[e.meter := Meter(e.after, archived)], l.entries + [e]);
    forall i | 0 <= i < |after.entries| ensures after.entries[i].meter in after.meters {
      if i < |l.entries| {
        assert after.entries[i] == l.entries[i];
      }
    }
    forall name | name in after.meters ensures AccountOf(after, name) {
      AppendKeepsOne(l, e, archived, name);
    }
  }

  lemma {:induction false} InsertKeepsAccount(l: Ledger, wanted: seq<NewMeter>)
    requires Accounted(l) && forall i | 0 <= i < |wanted| :: InRange(wanted[i].balance)
    ensures InsertMeters(l, wanted).Some? ==> Accounted(InsertMeters(l, wanted).value)
  {
    if wanted != [] {
      var front, m := wanted[..|wanted| - 1], wanted[|wanted| - 1];
      InsertKeepsAccount(l, front);
      if InsertMeters(l, front).Some? && m.name !in InsertMeters(l, front).value.meters {
        AppendKeepsAccount(InsertMeters(l, front).value,
                           Entry(m.name, Operator, Create, m.balance, 0, m.balance), false);
      }
    }
  }

  lemma ArchiveKeepsAccount(l: Ledger, metered: bool, name: string)
    requires Accounted(l)
    ensures Accounted(ArchiveMeter(l, metered, name).0)
  {
    if ArchiveMeter(l, metered, name).1.Archived? {
      BalanceInRange(l, name);
      var balance := l.meters[name].balance;
      AppendKeepsAccount(l, Entry(name, Operator, Archive, 0, balance, balance), true);
    }
  }

  lemma ConsumeKeepsAccount(l: Ledger, name: string, units: int, eventId: string)
    requires Accounted(l)
    ensures Accounted(ConsumeUnits(l, name, units, eventId).0)
  {
    if ConsumeUnits(l, name, units, eventId).1.Consumed? {
      BalanceInRange(l, name);
      var balance := l.meters[name].balance;
      AppendKeepsAccount(l, Entry(name, Digest(eventId), Consume, -units, balance, balance - units), false);
    }
  }

  lemma AdjustKeepsAccount(l: Ledger, name: string, delta: int, kind: Kind)
    requires Accounted(l)
    ensures Accounted(Adjust(l, name, delta, kind).0)
  {
    if Adjust(l, name, delta, kind).1.Adjusted? {
      BalanceInRange(l, name);
      var balance := l.meters[name].balance;
      AppendKeepsAccount(l, Entry(name, Operator, kind, delta, balance, balance + delta), false);
    }
  }

  lemma ApplyKeepsAccount(l: Ledger, op: Op)
    requires Accounted(l)
    ensures Accounted(Apply(l, op).0)
  {
    match op {
      case DoCreate(name, balance) =>
        if Apply(l, op).1.Created? {
          AppendKeepsAccount(l, Entry(name, Operator, Create, balance, 0, balance), false);
        }
      case DoArchive(metered, name) => ArchiveKeepsAccount(l, metered, name);
      case DoConsume(name, units, eventId) => ConsumeKeepsAccount(l, name, units, eventId);
      case DoAdjust(name, delta, kind) => AdjustKeepsAccount(l, name, delta, kind);
      case DoInsert(wanted) =>
        if Apply(l, op).1.Created? {
          InsertKeepsAccount(l, wanted);
        }
    }
  }

  lemma BalanceInRange(l: Ledger, name: string)
    requires Accounted(l) && name in l.meters
    ensures InRange(l.meters[name].balance)
  {
    assert AccountOf(l, name);
    var h := History(l.entries, name);
    assert Linked(h, |h| - 1);
  }

  lemma {:induction false} ChainSums(h: seq<Entry>)
    requires Chained(h)
    ensures Sum(h) == if h == [] then 0 else h[|h| - 1].after
  {
    if h != [] {
      var n := |h| - 1;
      forall i | 0 <= i < n ensures Linked(h[..n], i) {
        assert Linked(h, i);
      }
      ChainSums(h[..n]);
      assert Linked(h, n);
    }
  }

  lemma {:induction false} RunKeepsAccount(l: Ledger, ops: seq<Op>)
    requires Accounted(l)
    ensures Accounted(RunFrom(l, ops))
  {
    if ops != [] {
      RunKeepsAccount(l, ops[..|ops| - 1]);
      ApplyKeepsAccount(RunFrom(l, ops[..|ops| - 1]), ops[|ops| - 1]);
    }
  }

  /**
   Conservation: after any run every meter's entries form a chain from zero, its balance is
   the sum of their deltas, and it lies in the range of the column.
   */
  lemma LedgerConserves(ops: seq<Op>, name: string)
    requires name in RunFrom(EMPTY, ops).meters
    ensures var l := RunFrom(EMPTY, ops);
            var h := History(l.entries, name);
            && h != [] && Chained(h)
            && l.meters[name].balance == h[|h| - 1].after == Sum(h)
            && InRange(l.meters[name].balance)
  {
    RunKeepsAccount(EMPTY, ops);
    assert AccountOf(RunFrom(EMPTY, ops), name);
    BalanceInRange(RunFrom(EMPTY, ops), name);
    ChainSums(History(RunFrom(EMPTY, ops).entries, name));
  }

  /** A call that does not commit changes nothing; one that does extends the ledger. */
  lemma RejectedChangesNothing(l: Ledger, op: Op)
    ensures !Commits(Apply(l, op).1) ==> Apply(l, op).0 == l
    ensures l.entries <= Apply(l, op).0.entries
    ensures Commits(Apply(l, op).1) && !op.DoInsert? ==> |Apply(l, op).0.entries| == |l.entries| + 1
  {
    if op.DoInsert? {
      InsertExtends(l, op.wanted);
    }
  }

  lemma {:induction false} InsertExtends(l: Ledger, wanted: seq<NewMeter>)
    ensures InsertMeters(l, wanted).Some? ==>
              l.entries <= InsertMeters(l, wanted).value.entries
              && (forall name | name in l.meters ::
                    name in InsertMeters(l, wanted).value.meters
                    && InsertMeters(l, wanted).value.meters[name] == l.meters[name])
  {
    if wanted != [] {
      InsertExtends(l, wanted[..|wanted| - 1]);
    }
  }

  // ---------------------------------------------------------------- what one call does to meters and ledger

  /** The call touched this meter only, left it with this balance, and appended one entry of this delta. */
  ghost predicate MovedOnly(l: Ledger, after: Ledger, name: string, balance: int, archived: bool, delta: int)
  {
    && after.meters.Keys == l.meters.Keys + {name}
    && after.meters[name].balance == balance && after.meters[name].archived == archived
    && (forall other | other in l.meters && other != name :: after.meters[other] == l.meters[other])
    && |after.entries| == |l.entries| + 1 && after.entries[..|l.entries|] == l.entries
    && var e := after.entries[|l.entries|];
       e.meter == name && e.delta == delta && e.after == balance && e.before == balance - delta
  }

  ghost predicate IsNew(l: Ledger, eventId: string)
  {
    forall i | 0 <= i < |l.entries| :: l.entries[i].event != Digest(eventId)
  }

  lemma {:induction false} FindEventFails(entries: seq<Entry>, key: EventKey)
    ensures FindEvent(entries, key).None? <==> forall i | 0 <= i < |entries| :: entries[i].event != key
  {
    if entries != [] && entries[0].event != key {
      FindEventFails(entries[1..], key);
      if FindEvent(entries, key).None? {
        forall i | 0 <= i < |entries| ensures entries[i].event != key {
          assert i > 0 ==> entries[i] == entries[1..][i - 1];
        }
      }
    }
  }

  /**
   A new event takes exactly the units asked for, and it takes them if and only if the meter is
   there, active and holds at least that many; otherwise the answer names the cause and nothing changes.
   */
  lemma ConsumptionIsExact(l: Ledger, name: string, units: int, eventId: string)
    requires IsNew(l, eventId)
    ensures
      var (after, o) := ConsumeUnits(l, name, units, eventId);
      if units < 1 || units > 2_147_483_647 then o == Invalid && after == l
      else if name !in l.meters then o == NotFound && after == l
      else if l.meters[name].archived then o == IsArchived && after == l
      else if l.meters[name].balance < units then o == Exhausted && after == l
      else
        && o == Consumed(l.meters[name].balance - units)
        && MovedOnly(l, after, name, l.meters[name].balance - units, false, -units)
        && after.entries[|l.entries|].event == Digest(eventId) && after.entries[|l.entries|].kind.Consume?
  {
    FindEventFails(l.entries, Digest(eventId));
  }

  /** An operator's delta is applied whole, and only if the balance stays in range. */
  lemma AdjustmentIsExact(l: Ledger, name: string, delta: int, kind: Kind)
    requires Accounted(l)
    ensures
      var (after, o) := Adjust(l, name, delta, kind);
      if delta == 0 || delta < -2_147_483_647 || delta > 2_147_483_647 || !(kind.TopUp? || kind.Adjustment?) then
        o == Invalid && after == l
      else if name !in l.meters then o == NotFound && after == l
      else if l.meters[name].archived then o == IsArchived && after == l
      else if !InRange(l.meters[name].balance + delta) then o == OutOfRange && after == l
      else
        && o == Adjusted(l.meters[name].balance + delta)
        && MovedOnly(l, after, name, l.meters[name].balance + delta, false, delta)
        && after.entries[|l.entries|].event.Operator? && after.entries[|l.entries|].kind == kind
  {
    if name in l.meters {
      BalanceInRange(l, name);
    }
  }

  /** Archiving keeps the balance; a metered license keeps one active meter. */
  lemma ArchivingIsExact(l: Ledger, metered: bool, name: string)
    ensures
      var (after, o) := ArchiveMeter(l, metered, name);
      if name !in l.meters then o == NotFound && after == l
      else if l.meters[name].archived then o == IsArchived && after == l
      else if metered && (forall other | other in l.meters && other != name :: l.meters[other].archived) then
        o == LastActiveMeter && after == l
      else
        o == Archived && MovedOnly(l, after, name, l.meters[name].balance, true, 0)
  {
    if name in l.meters && !l.meters[name].archived {
      var rest := Active(l.meters) - {name};
      assert |rest| == |Active(l.meters)| - 1;
      if |Active(l.meters)| == 1 {
        assert rest == {};
        forall other | other in l.meters && other != name ensures l.meters[other].archived {
          assert other !in rest;
        }
      } else {
        var other :| other in rest;
      }
    }
  }

  lemma CreationIsExact(l: Ledger, name: string, balance: int)
    ensures
      var (after, o) := CreateMeter(l, name, balance);
      if !InRange(balance) then o == Invalid && after == l
      else if name in l.meters then o == AlreadyExists && after == l
      else
        && o == Created && MovedOnly(l, after, name, balance, false, balance)
        && after.entries[|l.entries|].before == 0
  {
  }

  /** After an insertion the meters are those before, untouched, and those wanted, with the balance asked for. */
  lemma {:induction false} InsertedMeters(l: Ledger, wanted: seq<NewMeter>)
    requires InsertMeters(l, wanted).Some?
    ensures var after := InsertMeters(l, wanted).value.meters;
            && (forall name | name in l.meters :: name in after && after[name] == l.meters[name])
            && (forall m | m in wanted :: m.name in after && after[m.name] == Meter(m.balance, false))
            && (forall name | name in after && name !in l.meters :: IsWanted(wanted, name))
  {
    if wanted != [] {
      var front, m := wanted[..|wanted| - 1], wanted[|wanted| - 1];
      InsertedMeters(l, front);
      assert wanted == front + [m];
      var before, after := InsertMeters(l, front).value.meters, InsertMeters(l, wanted).value.meters;
      assert after == if m.name in before then before else before[m.name := Meter(m.balance, false)];
      forall name | name in after && name !in l.meters ensures IsWanted(wanted, name) {
        WantedGrows(front, m, name);
      }
    }
  }

  /** A list of different meters goes in if and only if no name is taken by an archived meter or another balance. */
  lemma {:induction false} InsertionIsExact(l: Ledger, wanted: seq<NewMeter>)
    requires forall i, j | 0 <= i < j < |wanted| :: wanted[i].name != wanted[j].name
    ensures InsertMeters(l, wanted).Some? <==>
              forall m | m in wanted && m.name in l.meters :: l.meters[m.name] == Meter(m.balance, false)
  {
    if wanted != [] {
      var front, m := wanted[..|wanted| - 1], wanted[|wanted| - 1];
      InsertionIsExact(l, front);
      assert wanted == front + [m];
      if InsertMeters(l, front).Some? {
        InsertedMeters(l, front);
        assert !IsWanted(front, m.name);
      }
    }
  }

  ghost predicate IsWanted(wanted: seq<NewMeter>, name: string)
  {
    exists i | 0 <= i < |wanted| :: wanted[i].name == name
  }

  lemma WantedGrows(front: seq<NewMeter>, last: NewMeter, name: string)
    ensures IsWanted(front + [last], name) <==> IsWanted(front, name) || last.name == name
  {
    if IsWanted(front, name) {
      var i :| 0 <= i < |front| && front[i].name == name;
      assert (front + [last])[i].name == name;
    }
    assert (front + [last])[|front|] == last;
  }

  /** What a call adds to a meter, by its arguments and its answer alone. */
  function Asked(l: Ledger, op: Op, name: string): int
  {
    if !Commits(Apply(l, op).1) then 0
    else
      match op
      case DoCreate(n, balance) => if n == name then balance else 0
      case DoArchive(_, _) => 0
      case DoConsume(n, units, _) => if n == name then -units else 0
      case DoAdjust(n, delta, _) => if n == name then delta else 0
      case DoInsert(wanted) => if name in l.meters then 0 else Wanted(wanted, name)
  }

  /** The balance the list asks for under this name. */
  function Wanted(wanted: seq<NewMeter>, name: string): int
  {
    if wanted == [] then 0
    else if wanted[0].name == name then wanted[0].balance
    else Wanted(wanted[1..], name)
  }

  function TotalAsked(ops: seq<Op>, name: string): int
  {
    if ops == [] then 0
    else TotalAsked(ops[..|ops| - 1], name) + Asked(RunFrom(EMPTY, ops[..|ops| - 1]), ops[|ops| - 1], name)
  }

  function BalanceOf(l: Ledger, name: string): int
  {
    if name in l.meters then l.meters[name].balance else 0
  }

  lemma {:induction false} InsertedBalance(l: Ledger, wanted: seq<NewMeter>, name: string)
    requires InsertMeters(l, wanted).Some? && name !in l.meters
    ensures BalanceOf(InsertMeters(l, wanted).value, name) == Wanted(wanted, name)
    ensures name in InsertMeters(l, wanted).value.meters <==> IsWanted(wanted, name)
  {
    if wanted != [] {
      var n := |wanted| - 1;
      InsertedBalance(l, wanted[..n], name);
      WantedLast(wanted[..n], wanted[n], name);
      WantedGrows(wanted[..n], wanted[n], name);
      assert wanted == wanted[..n] + [wanted[n]];
    }
  }

  lemma {:induction false} WantedLast(front: seq<NewMeter>, last: NewMeter, name: string)
    ensures Wanted(front + [last], name)
         == if IsWanted(front, name) then Wanted(front, name) else if last.name == name then last.balance else 0
  {
    if front != [] {
      assert (front + [last])[1..] == front[1..] + [last];
      if front[0].name != name {
        WantedLast(front[1..], last, name);
        if IsWanted(front, name) {
          var i :| 0 <= i < |front| && front[i].name == name;
          assert front[1..][i - 1].name == name;
        }
      }
    }
  }

  lemma ApplyAdds(l: Ledger, op: Op, name: string)
    ensures BalanceOf(Apply(l, op).0, name) == BalanceOf(l, name) + Asked(l, op, name)
  {
    if op.DoInsert? && Commits(Apply(l, op).1) {
      InsertExtends(l, op.wanted);
      if name !in l.meters {
        InsertedBalance(l, op.wanted, name);
      }
    }
  }

  /**
   After any run a meter holds exactly what the calls that committed asked for: balances of its
   creation, deltas of adjustments, less the units consumed.
   */
  lemma {:induction false} BalanceIsWhatWasAsked(ops: seq<Op>, name: string)
    ensures BalanceOf(RunFrom(EMPTY, ops), name) == TotalAsked(ops, name)
  {
    if ops != [] {
      BalanceIsWhatWasAsked(ops[..|ops| - 1], name);
      ApplyAdds(RunFrom(EMPTY, ops[..|ops| - 1]), ops[|ops| - 1], name);
    }
  }

  // ---------------------------------------------------------------- idempotency

  lemma {:induction false} RunExtends(l: Ledger, ops: seq<Op>)
    ensures l.entries <= RunFrom(l, ops).entries
  {
    if ops != [] {
      RunExtends(l, ops[..|ops| - 1]);
      RejectedChangesNothing(RunFrom(l, ops[..|ops| - 1]), ops[|ops| - 1]);
    }
  }

  lemma {:induction false} FoundStaysFound(entries: seq<Entry>, more: seq<Entry>, key: EventKey)
    requires entries <= more && FindEvent(entries, key).Some?
    ensures FindEvent(more, key) == FindEvent(entries, key)
  {
    if entries[0].event != key {
      FoundStaysFound(entries[1..], more[1..], key);
    }
  }

  lemma {:induction false} FindsAppended(entries: seq<Entry>, e: Entry)
    requires FindEvent(entries, e.event).None?
    ensures FindEvent(entries + [e], e.event) == Some(e)
  {
    if entries != [] {
      assert (entries + [e])[1..] == entries[1..] + [e];
      FindsAppended(entries[1..], e);
    }
  }

  /**
   Idempotency across history: once a consumption has committed, repeating it after any
   sequence of other operations changes nothing and returns the original remaining balance,
   and reusing its event ID for another meter or amount is a conflict that changes nothing.
   */
  lemma ConsumptionIsIdempotent(l: Ledger, name: string, units: int, eventId: string, ops: seq<Op>,
                                name': string, units': int)
    requires ConsumeUnits(l, name, units, eventId).1.Consumed?
    requires 1 <= units' <= MAX_LICENSE_LIMIT
    ensures var (after, first) := ConsumeUnits(l, name, units, eventId);
            var later := RunFrom(after, ops);
            ConsumeUnits(later, name', units', eventId)
            == (later, if name' == name && units' == units then Replayed(first.remaining) else Conflict)
  {
    var (after, first) := ConsumeUnits(l, name, units, eventId);
    var balance := l.meters[name].balance;
    var e := Entry(name, Digest(eventId), Consume, -units, balance, balance - units);
    FindsAppended(l.entries, e);
    RunExtends(after, ops);
    FoundStaysFound(after.entries, RunFrom(after, ops).entries, Digest(eventId));
  }

  /** No two entries of a run belong to one caller's event. */
  ghost predicate ChargedOnce(l: Ledger)
  {
    forall i, j | 0 <= i < j < |l.entries| && l.entries[i].event.Digest? :: l.entries[j].event != l.entries[i].event
  }

  lemma {:induction false} InsertKeepsCharges(l: Ledger, wanted: seq<NewMeter>)
    requires ChargedOnce(l) && InsertMeters(l, wanted).Some?
    ensures ChargedOnce(InsertMeters(l, wanted).value)
  {
    if wanted != [] {
      InsertKeepsCharges(l, wanted[..|wanted| - 1]);
    }
  }

  /** Each event is charged at most once in every run. */
  lemma {:induction false} EventsAreChargedOnce(ops: seq<Op>)
    ensures ChargedOnce(RunFrom(EMPTY, ops))
  {
    if ops != [] {
      var l, op := RunFrom(EMPTY, ops[..|ops| - 1]), ops[|ops| - 1];
      EventsAreChargedOnce(ops[..|ops| - 1]);
      if op.DoInsert? {
        if Apply(l, op).1.Created? {
          InsertKeepsCharges(l, op.wanted);
        }
      } else if op.DoConsume? {
        FindEventFails(l.entries, Digest(op.eventId));
      }
    }
  }
}
