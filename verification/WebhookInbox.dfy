/**
 The durable inbox of Stripe webhooks: events are claimed in batches under a lease, earliest
 due first, and each is then marked processed or given a later attempt by capped exponential
 backoff. One worker runs at a time; its `running` flag keeps batches from overlapping.
 */
module WebhookInbox {
  import opened Wrappers

  const LEASE_MS: int := 60_000
  const MAX_BATCH: int := 100
  const MIN_BASE_DELAY_MS: int := 100
  const MAX_EXPONENT: nat := 30

  datatype Status = Pending | Processing | Processed | Failed

  /** `touchedAt` is when the row was last written; the table itself does not keep it. */
  datatype Event = Event(status: Status, attempts: nat, nextAttemptAt: int, touchedAt: int)

  type Rows = map<string, Event>

  datatype Retry = Retry(baseDelayMs: int, maxDelayMs: int)

  // ---------------------------------------------------------------- backoff

  /** The options as the service clamps them. */
  function Clamped(baseDelayMs: int, maxDelayMs: int): (r: Retry)
    ensures MIN_BASE_DELAY_MS <= r.baseDelayMs <= r.maxDelayMs
    ensures r.baseDelayMs == baseDelayMs || (r.baseDelayMs == 100 && baseDelayMs < 100)
    ensures r.maxDelayMs == maxDelayMs || (r.maxDelayMs == r.baseDelayMs && maxDelayMs < r.baseDelayMs)
  {
    var base := Max(MIN_BASE_DELAY_MS, baseDelayMs);
    Retry(base, Max(base, maxDelayMs))
  }

  ghost predicate Usable(r: Retry)
  {
    MIN_BASE_DELAY_MS <= r.baseDelayMs <= r.maxDelayMs
  }

  function Power2(n: nat): (p: nat)
    ensures p >= 1
  {
    if n == 0 then 1 else 2 * Power2(n - 1)
  }

  function Backoff(r: Retry, attempts: nat): int
  {
    var exponent := Min(Max(attempts - 1, 0), MAX_EXPONENT);
    Min(r.maxDelayMs, r.baseDelayMs * Power2(exponent))
  }

  lemma {:induction false} Power2Grows(m: nat, n: nat)
    requires m <= n
    ensures Power2(m) <= Power2(n)
  {
    if m < n {
      Power2Grows(m, n - 1);
    }
  }

  lemma ScaleGrows(base: int, x: int, y: int)
    requires base > 0 && 1 <= x <= y
    ensures base <= base * x <= base * y
  {
    assert base * (y - x) >= 0 && base * (x - 1) >= 0;
  }

  /** The delay stays between base and maximum and never falls with further attempts. */
  lemma BackoffIsMonotone(r: Retry, fewer: nat, more: nat)
    requires Usable(r) && fewer <= more
    ensures r.baseDelayMs <= Backoff(r, fewer) <= Backoff(r, more) <= r.maxDelayMs
  {
    var e := Min(Max(fewer - 1, 0), MAX_EXPONENT);
    var f := Min(Max(more - 1, 0), MAX_EXPONENT);
    Power2Grows(e, f);
    ScaleGrows(r.baseDelayMs, Power2(e), Power2(f));
  }

  lemma CappedDouble(cap: int, x: int)
    requires cap >= 0
    ensures Min(cap, 2 * x) == Min(cap, 2 * Min(cap, x))
  {
  }

  /** The first retry waits the base delay, each further one twice as long up to the cap, the same from the 31st on. */
  lemma BackoffDoubles(r: Retry, attempts: nat)
    requires Usable(r)
    ensures attempts <= 1 ==> Backoff(r, attempts) == r.baseDelayMs
    ensures 1 <= attempts <= 30 ==> Backoff(r, attempts + 1) == Min(r.maxDelayMs, 2 * Backoff(r, attempts))
    ensures attempts > 30 ==> Backoff(r, attempts + 1) == Backoff(r, attempts)
  {
    if 1 <= attempts <= 30 {
      assert r.baseDelayMs * Power2(attempts) == 2 * (r.baseDelayMs * Power2(attempts - 1));
      CappedDouble(r.maxDelayMs, r.baseDelayMs * Power2(attempts - 1));
    }
  }

  // ---------------------------------------------------------------- claiming

  function Due(rows: Rows, now: int): set<string>
  {
    set id | id in rows && !rows[id].status.Processed? && rows[id].nextAttemptAt <= now
  }

  function BatchSize(limit: int): nat
  {
    if limit < 1 then 0 else Min(limit, MAX_BATCH)
  }

  ghost predicate Unique(ids: seq<string>)
  {
    forall i, j | 0 <= i < j < |ids| :: ids[i] != ids[j]
  }

  /** A claim takes as many due events as fit, and none that is due later than one it leaves. */
  ghost predicate IsClaim(rows: Rows, now: int, limit: int, chosen: seq<string>)
  {
    && Unique(chosen) && (forall id | id in chosen :: id in Due(rows, now))
    && |chosen| == Min(BatchSize(limit), |Due(rows, now)|)
    && forall c, d | c in chosen && d in Due(rows, now) && d !in chosen ::
         rows[c].nextAttemptAt <= rows[d].nextAttemptAt
  }

  function Leased(e: Event, now: int, at: int): Event
  {
    Event(Processing, e.attempts + 1, now + LEASE_MS, at)
  }

  function Claim(rows: Rows, chosen: seq<string>, now: int, at: int): Rows
  {
    map id | id in rows :: if id in chosen then Leased(rows[id], now, at) else rows[id]
  }

  /** The attempts of an event as its claim read them; later claims do not change them. */
  function ClaimedAttempts(snapshot: Rows, id: string): nat
  {
    if id in snapshot then snapshot[id].attempts else 0
  }

  /** The end of one event's processing in a batch that started at `now` and claimed `snapshot`. */
  function Settle(rows: Rows, r: Retry, snapshot: Rows, id: string, succeeded: bool, now: int, at: int): Rows
  {
    if id !in rows then rows
    else if succeeded then rows[id := rows[id].(status := Processed, touchedAt := at)]
    else
      rows[id := rows[id].(status := Failed, nextAttemptAt := now + Backoff(r, ClaimedAttempts(snapshot, id)),
                 touchedAt := at)]
  }

  /** Claimed events settled in the order they were claimed. */
  function SettleAll(leased: Rows, r: Retry, ids: seq<string>, succeeds: map<string, bool>, now: int): Rows
  {
    if ids == [] then leased
    else
      var id := ids[|ids| - 1];
      Settle(SettleAll(leased, r, ids[..|ids| - 1], succeeds, now), r, leased, id,
             id in succeeds && succeeds[id], now, now)
  }

  function Enqueue(rows: Rows, id: string, at: int): Rows
  {
    if id in rows then rows else rows[id := Event(Pending, 0, at, at)]
  }

  // ---------------------------------------------------------------- the table and its worker

  class Inbox {
    var rows: Rows
    var running: bool
    const retry: Retry

    constructor (baseDelayMs: int, maxDelayMs: int)
      ensures rows == map[] && !running && retry == Clamped(baseDelayMs, maxDelayMs)
    {
      rows, running := map[], false;
      retry := Clamped(baseDelayMs, maxDelayMs);
    }

    method Receive(id: string, at: int) returns (inserted: bool)
      modifies this`rows
      ensures rows == Enqueue(old(rows), id, at) && inserted == (id !in old(rows))
    {
      inserted := id !in rows;
      if inserted {
        rows := rows[id := Event(Pending, 0, at, at)];
      }
    }

    /** One event of the set whose due time no other undercuts. */
    method Earliest(due: set<string>) returns (first: string)
      requires due != {} && due <= rows.Keys
      ensures first in due && forall id | id in due :: rows[first].nextAttemptAt <= rows[id].nextAttemptAt
    {
      first :| first in due;
      var rest := due - {first};
      while rest != {}
        invariant first in due && rest <= due
        invariant forall id | id in due - rest :: rows[first].nextAttemptAt <= rows[id].nextAttemptAt
        decreases rest
      {
        var id :| id in rest;
        if rows[id].nextAttemptAt < rows[first].nextAttemptAt {
          first := id;
        }
        rest := rest - {id};
      }
    }

    method ClaimDue(limit: int, now: int) returns (chosen: seq<string>)
      modifies this`rows
      ensures IsClaim(old(rows), now, limit, chosen)
      ensures rows == Claim(old(rows), chosen, now, now)
    {
      chosen := [];
      var rest := Due(rows, now);
      ghost var due := rest;
      while |chosen| < BatchSize(limit) && rest != {}
        invariant rows == old(rows) && rest <= due <= rows.Keys && Unique(chosen) && |chosen| <= BatchSize(limit)
        invariant forall id | id in chosen :: id in due && id !in rest
        invariant forall id | id in due && id !in rest :: id in chosen
        invariant |chosen| + |rest| == |due|
        invariant forall c, d | c in chosen && d in rest :: rows[c].nextAttemptAt <= rows[d].nextAttemptAt
        decreases rest
      {
        var first := Earliest(rest);
        chosen := chosen + [first];
        rest := rest - {first};
      }
      rows := Claim(rows, chosen, now, now);
    }

    /**
     One batch; `succeeds` decides the outcome of each reconciliation, and after `settles` of
     them the database fails, which ends the batch with an exception.
     */
    method ProcessDue(limit: int, now: int, succeeds: map<string, bool>, settles: nat)
      returns (chosen: seq<string>, completed: bool)
      modifies this`rows
      ensures IsClaim(old(rows), now, limit, chosen) && completed == (|chosen| <= settles)
      ensures rows == SettleAll(Claim(old(rows), chosen, now, now), retry, chosen[..Min(settles, |chosen|)], succeeds, now)
    {
      chosen := ClaimDue(limit, now);
      var claimed := rows;
      for i := 0 to |chosen|
        invariant i <= settles && rows == SettleAll(claimed, retry, chosen[..i], succeeds, now)
      {
        if i == settles {
          return chosen, false;
        }
        assert chosen[..i + 1][..i] == chosen[..i];
        var id := chosen[i];
        if id in rows {
          if id in succeeds && succeeds[id] {
            rows := rows[id := rows[id].(status := Processed, touchedAt := now)];
          } else {
            var delay := Backoff(retry, ClaimedAttempts(claimed, id));
            rows := rows[id := rows[id].(status := Failed, nextAttemptAt := now + delay, touchedAt := now)];
          }
        }
      }
      return chosen, true;
    }

    /** A call that finds a batch running claims nothing; the flag falls even when the batch fails. */
    method RunOnce(batchSize: int, now: int, succeeds: map<string, bool>, settles: nat)
      returns (chosen: seq<string>, completed: bool)
      modifies this
      ensures old(running) ==> chosen == [] && completed && rows == old(rows) && running
      ensures !old(running) ==>
                && IsClaim(old(rows), now, Max(1, Min(batchSize, MAX_BATCH)), chosen)
                && completed == (|chosen| <= settles) && !running
                && rows == SettleAll(Claim(old(rows), chosen, now, now), retry,
                                     chosen[..Min(settles, |chosen|)], succeeds, now)
    {
      if running {
        return [], true;
      }
      running := true;
      chosen, completed := ProcessDue(Max(1, Min(batchSize, MAX_BATCH)), now, succeeds, settles);
      running := false;
    }
  }

  // ---------------------------------------------------------------- runs with one worker

  /** A batch in progress: when it started, what is left of it, and the rows as it claimed them. */
  datatype Batch = Batch(now: int, left: seq<string>, snapshot: Rows)

  datatype State = State(rows: Rows, batch: Option<Batch>)

  /** A crash ends the batch and leaves its remaining events to their leases. */
  datatype Step =
    | Arrive(id: string, at: int)
    | Start(chosen: seq<string>, at: int)
    | Finish(succeeded: bool, at: int)
    | Stop(at: int)

  ghost predicate Possible(s: State, limit: int, step: Step)
  {
    match step
    case Arrive(_, _) => true
    case Start(chosen, at) => s.batch.None? && IsClaim(s.rows, at, limit, chosen)
    case Finish(_, at) => s.batch.Some? && s.batch.value.left != [] && s.batch.value.now <= at
    case Stop(at) => s.batch.Some? && s.batch.value.now <= at
  }

  function Next(s: State, r: Retry, step: Step): State
  {
    match step
    case Arrive(id, at) => s.(rows := Enqueue(s.rows, id, at))
    case Start(chosen, at) => State(Claim(s.rows, chosen, at, at), Some(Batch(at, chosen, Claim(s.rows, chosen, at, at))))
    case Finish(succeeded, at) =>
      if s.batch.None? || s.batch.value.left == [] then s
      else
        var b := s.batch.value;
        State(Settle(s.rows, r, b.snapshot, b.left[0], succeeded, b.now, at), Some(b.(left := b.left[1..])))
    case Stop(_) => s.(batch := None)
  }

  function After(s: State, r: Retry, steps: seq<Step>): State
  {
    if steps == [] then s else Next(After(s, r, steps[..|steps| - 1]), r, steps[|steps| - 1])
  }

  ghost predicate PossibleRun(s: State, r: Retry, limit: int, steps: seq<Step>)
  {
    steps == [] ||
    (var n := |steps| - 1;
     PossibleRun(s, r, limit, steps[..n]) && Possible(After(s, r, steps[..n]), limit, steps[n]))
  }

  // ---------------------------------------------------------------- nothing is lost

  /** Unprocessed events come due within the longer of the lease and the largest delay. */
  ghost predicate Scheduled(rows: Rows, r: Retry)
  {
    forall id | id in rows && !rows[id].status.Processed? ::
      rows[id].nextAttemptAt <= rows[id].touchedAt + Max(LEASE_MS, r.maxDelayMs)
  }

  /** What the batch still has to settle is leased, and listed once. */
  ghost predicate BatchOk(s: State)
  {
    s.batch.Some? ==>
      Unique(s.batch.value.left)
      && forall i | 0 <= i < |s.batch.value.left| ::
           s.batch.value.left[i] in s.rows && s.rows[s.batch.value.left[i]].status.Processing?
  }

  lemma NextKeepsSchedule(s: State, r: Retry, limit: int, step: Step)
    requires Usable(r) && Scheduled(s.rows, r) && BatchOk(s) && Possible(s, limit, step)
    ensures Scheduled(Next(s, r, step).rows, r) && BatchOk(Next(s, r, step))
    ensures forall id | id in s.rows ::
              id in Next(s, r, step).rows
              && (s.rows[id].status.Processed? ==> Next(s, r, step).rows[id] == s.rows[id])
  {
    match step {
      case Arrive(id, at) =>
      case Start(chosen, at) =>
        assert forall i | 0 <= i < |chosen| :: chosen[i] in chosen;
      case Finish(succeeded, at) =>
        var attempts := ClaimedAttempts(s.batch.value.snapshot, s.batch.value.left[0]);
        BackoffIsMonotone(r, attempts, attempts);
      case Stop(_) =>
    }
  }

  /**
   With one worker no event is ever lost: it stays in the inbox, is processed or comes due
   again in time, and once processed it stays so.
   */
  lemma {:induction false} NothingIsLost(r: Retry, limit: int, before: seq<Step>, steps: seq<Step>, id: string)
    requires Usable(r)
    requires var start := After(State(map[], None), r, before);
             PossibleRun(State(map[], None), r, limit, before)
             && PossibleRun(start, r, limit, steps) && id in start.rows
    ensures var start := After(State(map[], None), r, before);
            var end := After(start, r, steps);
            && id in end.rows && Scheduled(end.rows, r) && BatchOk(end)
            && (start.rows[id].status.Processed? ==> end.rows[id] == start.rows[id])
  {
    var start := After(State(map[], None), r, before);
    if steps == [] {
      RunKeepsSchedule(r, limit, before);
    } else {
      var n := |steps| - 1;
      NothingIsLost(r, limit, before, steps[..n], id);
      NextKeepsSchedule(After(start, r, steps[..n]), r, limit, steps[n]);
    }
  }

  lemma {:induction false} RunKeepsSchedule(r: Retry, limit: int, steps: seq<Step>)
    requires Usable(r) && PossibleRun(State(map[], None), r, limit, steps)
    ensures Scheduled(After(State(map[], None), r, steps).rows, r) && BatchOk(After(State(map[], None), r, steps))
  {
    if steps != [] {
      var n := |steps| - 1;
      RunKeepsSchedule(r, limit, steps[..n]);
      NextKeepsSchedule(After(State(map[], None), r, steps[..n]), r, limit, steps[n]);
    }
  }

  // ---------------------------------------------------------------- nothing starves

  /** The unprocessed events that come due no later than this one, itself included. */
  function Ahead(rows: Rows, id: string): set<string>
  {
    set x | x in rows && id in rows && !rows[x].status.Processed? && rows[x].nextAttemptAt <= rows[id].nextAttemptAt
  }

  ghost predicate Waiting(rows: Rows, id: string, due: int)
  {
    id in rows && !rows[id].status.Processed? && rows[id].nextAttemptAt == due
  }

  /** A claim that skips a due event is a full batch of events ahead of it, and moves all of them behind. */
  lemma SkippingClaim(rows: Rows, id: string, limit: int, chosen: seq<string>, at: int)
    requires IsClaim(rows, at, limit, chosen) && id in Due(rows, at) && id !in chosen
    ensures |chosen| == BatchSize(limit)
    ensures |Ahead(Claim(rows, chosen, at, at), id)| + BatchSize(limit) == |Ahead(rows, id)|
    ensures id in Ahead(Claim(rows, chosen, at, at), id)
  {
    var taken := set x | x in chosen;
    assert taken <= Ahead(rows, id);
    assert taken <= Due(rows, at) - {id};
    UniqueSize(chosen);
    SubsetSize(taken, Due(rows, at) - {id});
    assert |Due(rows, at) - {id}| == |Due(rows, at)| - 1;
    assert Ahead(Claim(rows, chosen, at, at), id) == Ahead(rows, id) - taken;
  }

  lemma {:induction false} UniqueSize(ids: seq<string>)
    requires Unique(ids)
    ensures |set x | x in ids| == |ids|
  {
    if ids != [] {
      var n := |ids| - 1;
      UniqueSize(ids[..n]);
      assert (set x | x in ids) == (set x | x in ids[..n]) + {ids[n]};
      assert ids[n] !in ids[..n];
    }
  }

  /** A new event is due the moment it arrives, with no attempt made; one that is there stays as it is. */
  lemma ArrivalIsExact(rows: Rows, id: string, at: int)
    ensures
      var after := Enqueue(rows, id, at);
      && after.Keys == rows.Keys + {id} && (forall other | other in rows :: after[other] == rows[other])
      && (id !in rows ==> after[id] == Event(Pending, 0, at, at))
  {
  }

  /**
   A claim takes unprocessed events whose time has come, at most a hundred and at most the limit,
   and all of them if fewer are due; it counts an attempt and leases each for 60 seconds.
   */
  lemma ClaimIsExact(rows: Rows, now: int, limit: int, chosen: seq<string>, at: int)
    requires IsClaim(rows, now, limit, chosen)
    ensures
      var after := Claim(rows, chosen, now, at);
      var due := set id | id in rows && rows[id].status != Processed && rows[id].nextAttemptAt <= now;
      && (forall id | id in chosen :: id in due)
      && |chosen| <= 100 && (chosen == [] || |chosen| <= limit)
      && ((exists id :: id in due && id !in chosen) && limit >= 1 ==> |chosen| == limit || |chosen| == 100)
      && after.Keys == rows.Keys
      && (forall id | id in rows ::
            after[id] == if id in chosen then Event(Processing, rows[id].attempts + 1, now + 60_000, at) else rows[id])
  {
    var due := set id | id in rows && rows[id].status != Processed && rows[id].nextAttemptAt <= now;
    assert due == Due(rows, now);
    if id :| id in due && id !in chosen {
      var taken := set x | x in chosen;
      UniqueSize(chosen);
      assert taken <= due - {id};
      SubsetSize(taken, due - {id});
      assert |due - {id}| == |due| - 1;
    }
  }

  /** A settled event keeps its attempts: success is final, a failure waits out the delay its attempts call for. */
  lemma {:induction false} SettlingIsExact(leased: Rows, r: Retry, ids: seq<string>, succeeds: map<string, bool>,
                                           now: int, id: string)
    requires Unique(ids) && id in leased
    ensures id in SettleAll(leased, r, ids, succeeds, now)
    ensures
      var after := SettleAll(leased, r, ids, succeeds, now)[id];
      after ==
      if id !in ids then leased[id]
      else if id in succeeds && succeeds[id] then Event(Processed, leased[id].attempts, leased[id].nextAttemptAt, now)
      else Event(Failed, leased[id].attempts, now + Backoff(r, leased[id].attempts), now)
  {
    if ids != [] {
      var n := |ids| - 1;
      SettlingIsExact(leased, r, ids[..n], succeeds, now, id);
      assert ids == ids[..n] + [ids[n]];
      assert ids[n] !in ids[..n];
    }
  }

  /** The batches of a run that claimed an event. */
  function Claims(steps: seq<Step>, id: string): nat
  {
    if steps == [] then 0
    else
      var last := steps[|steps| - 1];
      Claims(steps[..|steps| - 1], id) + (if last.Start? && id in last.chosen then 1 else 0)
  }

  /** The attempts of an event are the claims made of it, crashed batches included. */
  lemma {:induction false} AttemptsAreClaims(r: Retry, limit: int, steps: seq<Step>, id: string)
    requires PossibleRun(State(map[], None), r, limit, steps)
    ensures
      var rows := After(State(map[], None), r, steps).rows;
      Claims(steps, id) == if id in rows then rows[id].attempts else 0
  {
    if steps != [] {
      var n := |steps| - 1;
      AttemptsAreClaims(r, limit, steps[..n], id);
      NextCountsClaims(After(State(map[], None), r, steps[..n]), r, limit, steps[n], id);
    }
  }

  lemma NextCountsClaims(s: State, r: Retry, limit: int, step: Step, id: string)
    requires Possible(s, limit, step)
    ensures
      var rows := Next(s, r, step).rows;
      (if id in rows then rows[id].attempts else 0)
      == (if id in s.rows then s.rows[id].attempts else 0) + (if step.Start? && id in step.chosen then 1 else 0)
  {
    if step.Start? && id in step.chosen {
      assert id in Due(s.rows, step.at);
    }
  }

  /** The batches started in a run. */
  function Batches(steps: seq<Step>): nat
  {
    if steps == [] then 0
    else Batches(steps[..|steps| - 1]) + (if steps[|steps| - 1].Start? then 1 else 0)
  }

  /** The arrivals at exactly the instant the waiting event comes due. */
  function Ties(steps: seq<Step>, due: int): nat
  {
    if steps == [] then 0
    else
      var last := steps[|steps| - 1];
      Ties(steps[..|steps| - 1], due) + (if last.Arrive? && last.at == due then 1 else 0)
  }

  /** From a due instant on the clock does not go back, and no batch claims the event. */
  ghost predicate Skips(steps: seq<Step>, id: string, due: int)
  {
    forall i | 0 <= i < |steps| :: steps[i].at >= due && (steps[i].Start? ==> id !in steps[i].chosen)
  }

  /** One step leaves the waiting event alone and accounts for who is ahead of it. */
  lemma StepAhead(s: State, r: Retry, limit: int, step: Step, id: string, due: int)
    requires Usable(r) && Possible(s, limit, step) && Waiting(s.rows, id, due) && step.at >= due
    requires step.Start? ==> id !in step.chosen
    requires s.batch.Some? ==> s.batch.value.now >= due && id !in s.batch.value.left
    ensures var s' := Next(s, r, step);
            && Waiting(s'.rows, id, due)
            && (s'.batch.Some? ==> s'.batch.value.now >= due && id !in s'.batch.value.left)
            && |Ahead(s'.rows, id)| + (if step.Start? then BatchSize(limit) else 0)
               <= |Ahead(s.rows, id)| + (if step.Arrive? && step.at == due then 1 else 0)
  {
    var s' := Next(s, r, step);
    match step {
      case Arrive(x, at) =>
        assert Ahead(s'.rows, id) <= Ahead(s.rows, id) + (if at == due then {x} else {});
        SubsetSize(Ahead(s'.rows, id), Ahead(s.rows, id) + (if at == due then {x} else {}));
      case Start(chosen, at) =>
        SkippingClaim(s.rows, id, limit, chosen, at);
      case Finish(succeeded, at) =>
        var attempts := ClaimedAttempts(s.batch.value.snapshot, s.batch.value.left[0]);
        BackoffIsMonotone(r, attempts, attempts);
        assert Ahead(s'.rows, id) <= Ahead(s.rows, id);
        SubsetSize(Ahead(s'.rows, id), Ahead(s.rows, id));
      case Stop(_) =>
    }
  }

  lemma OneMoreBatch(batches: nat, size: nat, starts: bool)
    ensures (batches + (if starts then 1 else 0)) * size == batches * size + (if starts then size else 0)
  {
  }

  /**
   Bounded wait: from the moment an event is due and the worker idle, the batches that skip it
   are limited by the events then ahead of it and the arrivals at its very instant. Whatever
   fails, arrives later or crashes in between does not delay it.
   */
  lemma {:induction false} ClaimedWithinBound(s: State, r: Retry, limit: int, steps: seq<Step>, id: string, due: int)
    requires Usable(r) && s.batch.None? && Waiting(s.rows, id, due)
    requires PossibleRun(s, r, limit, steps) && Skips(steps, id, due)
    ensures var end := After(s, r, steps);
            && Waiting(end.rows, id, due)
            && (end.batch.Some? ==> end.batch.value.now >= due && id !in end.batch.value.left)
            && 1 <= |Ahead(end.rows, id)|
            && |Ahead(end.rows, id)| + Batches(steps) * BatchSize(limit)
               <= |Ahead(s.rows, id)| + Ties(steps, due)
  {
    if steps != [] {
      var n := |steps| - 1;
      ClaimedWithinBound(s, r, limit, steps[..n], id, due);
      StepAhead(After(s, r, steps[..n]), r, limit, steps[n], id, due);
      OneMoreBatch(Batches(steps[..n]), BatchSize(limit), steps[n].Start?);
    }
    assert id in Ahead(After(s, r, steps).rows, id);
  }
}
