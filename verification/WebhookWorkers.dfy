/**
 Several workers on one inbox, each with its own batch and all under one clock. A batch claims
 with the time its worker read at the start, and every settle comes at most `limit` milliseconds
 after that time. Processed events then stay processed exactly while the lease outlives the limit.
 */
module WebhookWorkers {
  import opened Wrappers
  import opened WebhookInbox

  datatype Pool = Pool(clock: int, rows: Rows, batches: map<nat, Batch>)

  /** How many workers there are, how much one batch may claim, and how long it may take to settle. */
  datatype Bounds = Bounds(workers: nat, batchSize: int, settleWithin: int)

  datatype Action =
    | ClockMoves(to: int)
    | EventArrives(id: string)
    | BatchStarts(worker: nat, now: int, chosen: seq<string>)
    | EventSettles(worker: nat, succeeded: bool)
    | BatchStops(worker: nat)

  /** Rows that another claim has locked are skipped, so any due events may be chosen. */
  ghost predicate MayClaim(rows: Rows, now: int, batchSize: int, chosen: seq<string>)
  {
    Unique(chosen) && (forall id | id in chosen :: id in Due(rows, now)) && |chosen| <= BatchSize(batchSize)
  }

  ghost predicate Possible(s: Pool, b: Bounds, a: Action)
  {
    match a
    case ClockMoves(to) => s.clock <= to
    case EventArrives(_) => true
    case BatchStarts(worker, now, chosen) =>
      worker < b.workers && worker !in s.batches && now <= s.clock && MayClaim(s.rows, now, b.batchSize, chosen)
    case EventSettles(worker, _) =>
      worker in s.batches && s.batches[worker].left != [] && s.clock <= s.batches[worker].now + b.settleWithin
    case BatchStops(worker) => worker in s.batches
  }

  function Next(s: Pool, r: Retry, a: Action): Pool
  {
    match a
    case ClockMoves(to) => s.(clock := to)
    case EventArrives(id) => s.(rows := Enqueue(s.rows, id, s.clock))
    case BatchStarts(worker, now, chosen) =>
      var rows := Claim(s.rows, chosen, now, s.clock);
      s.(rows := rows, batches := s.batches[worker := Batch(now, chosen, rows)])
    case EventSettles(worker, succeeded) =>
      if worker !in s.batches || s.batches[worker].left == [] then s
      else
        var batch := s.batches[worker];
        s.(rows := Settle(s.rows, r, batch.snapshot, batch.left[0], succeeded, batch.now, s.clock),
        batches := s.batches[worker := batch.(left := batch.left[1..])])
    case BatchStops(worker) => s.(batches := s.batches - {worker})
  }

  ghost predicate Run(r: Retry, b: Bounds, states: seq<Pool>, actions: seq<Action>)
  {
    && |states| == |actions| + 1 && states[0].rows == map[] && states[0].batches == map[]
    && forall i | 0 <= i < |actions| :: Possible(states[i], b, actions[i]) && states[i + 1] == Next(states[i], r, actions[i])
  }

  // ---------------------------------------------------------------- the invariant

  /** A batch that may still settle; a worker without company never has to ask. */
  ghost predicate Live(s: Pool, b: Bounds, worker: nat)
    requires worker in s.batches
  {
    b.workers <= 1 || s.clock <= s.batches[worker].now + b.settleWithin
  }

  /** What a live batch still has to settle is leased to it, until its own lease runs out. */
  ghost predicate Leases(s: Pool, b: Bounds, worker: nat)
    requires worker in s.batches
  {
    var batch := s.batches[worker];
    Unique(batch.left)
    && forall i | 0 <= i < |batch.left| ::
         var id := batch.left[i];
         id in s.rows && s.rows[id].status.Processing?
         && (b.workers > 1 ==> s.rows[id].nextAttemptAt == batch.now + LEASE_MS)
  }

  ghost predicate Apart(one: Batch, other: Batch)
  {
    forall i, j | 0 <= i < |one.left| && 0 <= j < |other.left| :: one.left[i] != other.left[j]
  }

  ghost predicate Inv(s: Pool, b: Bounds)
  {
    && (forall w | w in s.batches :: w < b.workers)
    && (forall w | w in s.batches && Live(s, b, w) :: Leases(s, b, w))
    && (forall v, w | v in s.batches && w in s.batches && v != w && Live(s, b, v) && Live(s, b, w) ::
          Apart(s.batches[v], s.batches[w]))
  }

  ghost predicate Keeps(b: Bounds)
  {
    b.workers <= 1 || b.settleWithin < LEASE_MS
  }

  /** A claim takes nothing that another live batch still holds. */
  lemma ClaimSpares(s: Pool, b: Bounds, worker: nat, now: int, chosen: seq<string>, w: nat, i: nat)
    requires Keeps(b) && Inv(s, b) && Possible(s, b, BatchStarts(worker, now, chosen))
    requires w in s.batches && Live(s, b, w) && i < |s.batches[w].left|
    ensures s.batches[w].left[i] !in chosen
  {
    assert w != worker && Leases(s, b, w);
    assert s.batches[w].left[i] !in Due(s.rows, now);
  }

  lemma ClaimKeepsInv(s: Pool, r: Retry, b: Bounds, worker: nat, now: int, chosen: seq<string>)
    requires Keeps(b) && Inv(s, b) && Possible(s, b, BatchStarts(worker, now, chosen))
    ensures Inv(Next(s, r, BatchStarts(worker, now, chosen)), b)
  {
    var s' := Next(s, r, BatchStarts(worker, now, chosen));
    assert Leases(s', b, worker) by {
      assert forall i | 0 <= i < |chosen| :: chosen[i] in chosen;
    }
    forall w | w in s'.batches && w != worker && Live(s', b, w)
      ensures Leases(s', b, w) && Apart(s'.batches[w], s'.batches[worker]) && Apart(s'.batches[worker], s'.batches[w])
    {
      assert Live(s, b, w) && Leases(s, b, w);
      forall i | 0 <= i < |s.batches[w].left| ensures s.batches[w].left[i] !in chosen {
        ClaimSpares(s, b, worker, now, chosen, w, i);
      }
    }
  }

  lemma SettleKeepsInv(s: Pool, r: Retry, b: Bounds, worker: nat, succeeded: bool)
    requires Inv(s, b) && Possible(s, b, EventSettles(worker, succeeded))
    ensures Inv(Next(s, r, EventSettles(worker, succeeded)), b)
  {
    var s' := Next(s, r, EventSettles(worker, succeeded));
    var batch := s.batches[worker];
    assert Live(s, b, worker) && Leases(s, b, worker);
    forall w | w in s'.batches && Live(s', b, w) ensures Leases(s', b, w) {
      assert Live(s, b, w) && Leases(s, b, w);
      if w != worker {
        assert Apart(s.batches[w], batch);
      }
    }
    forall v, w | v in s'.batches && w in s'.batches && v != w && Live(s', b, v) && Live(s', b, w)
      ensures Apart(s'.batches[v], s'.batches[w])
    {
      assert Apart(s.batches[v], s.batches[w]);
    }
  }

  lemma NextKeepsInv(s: Pool, r: Retry, b: Bounds, a: Action)
    requires Keeps(b) && Inv(s, b) && Possible(s, b, a)
    ensures Inv(Next(s, r, a), b)
  {
    match a {
      case BatchStarts(worker, now, chosen) => ClaimKeepsInv(s, r, b, worker, now, chosen);
      case EventSettles(worker, succeeded) => SettleKeepsInv(s, r, b, worker, succeeded);
      case _ =>
        var s' := Next(s, r, a);
        forall w | w in s'.batches && Live(s', b, w) ensures Leases(s', b, w) {
          assert Live(s, b, w) && Leases(s, b, w);
        }
        assert forall w | w in s'.batches && Live(s', b, w) :: Live(s, b, w) && s'.batches[w] == s.batches[w];
    }
  }

  lemma NextKeepsProcessed(s: Pool, r: Retry, b: Bounds, a: Action, id: string)
    requires Inv(s, b) && Possible(s, b, a) && id in s.rows && s.rows[id].status.Processed?
    ensures id in Next(s, r, a).rows && Next(s, r, a).rows[id] == s.rows[id]
  {
    if a.EventSettles? {
      assert Live(s, b, a.worker) && Leases(s, b, a.worker);
    }
  }

  // ---------------------------------------------------------------- processed is final

  /** From its first processed state on, an event's row never changes. */
  ghost predicate Final(states: seq<Pool>)
  {
    forall i, j, id | 0 <= i <= j < |states| && id in states[i].rows && states[i].rows[id].status.Processed? ::
      id in states[j].rows && states[j].rows[id] == states[i].rows[id]
  }

  ghost predicate AlwaysFinal(r: Retry, b: Bounds)
  {
    forall states: seq<Pool>, actions: seq<Action> :: Run(r, b, states, actions) ==> Final(states)
  }

  lemma {:induction false} RunKeepsInv(r: Retry, b: Bounds, states: seq<Pool>, actions: seq<Action>, i: nat)
    requires Keeps(b) && Run(r, b, states, actions) && i < |states|
    ensures Inv(states[i], b)
  {
    if i > 0 {
      var k := i - 1;
      RunKeepsInv(r, b, states, actions, k);
      assert Possible(states[k], b, actions[k]) && states[k + 1] == Next(states[k], r, actions[k]);
      NextKeepsInv(states[k], r, b, actions[k]);
    }
  }

  lemma {:induction false} ProcessedStays(r: Retry, b: Bounds, states: seq<Pool>, actions: seq<Action>,
                                          i: nat, j: nat, id: string)
    requires Keeps(b) && Run(r, b, states, actions) && i <= j < |states|
    requires id in states[i].rows && states[i].rows[id].status.Processed?
    ensures id in states[j].rows && states[j].rows[id] == states[i].rows[id]
  {
    if i < j {
      var k := j - 1;
      ProcessedStays(r, b, states, actions, i, k, id);
      RunKeepsInv(r, b, states, actions, k);
      assert Possible(states[k], b, actions[k]) && states[k + 1] == Next(states[k], r, actions[k]);
      NextKeepsProcessed(states[k], r, b, actions[k], id);
    }
  }

  /** A second worker claims an event whose lease ran out and processes it; the first one's late failure reopens it. */
  lemma LateFailureReopens(r: Retry, b: Bounds, id: string)
    requires b.workers >= 2 && b.batchSize >= 1 && b.settleWithin >= LEASE_MS
    ensures exists states: seq<Pool>, actions: seq<Action> ::
              Run(r, b, states, actions) && |states| == 7
              && id in states[5].rows && states[5].rows[id].status.Processed?
              && id in states[6].rows && states[6].rows[id].status.Failed?
  {
    var s0 := Pool(0, map[], map[]);
    var a0 := EventArrives(id);
    var s1 := Next(s0, r, a0);
    var a1 := BatchStarts(0, 0, [id]);
    assert Possible(s1, b, a1);
    var s2 := Next(s1, r, a1);
    var a2 := ClockMoves(LEASE_MS);
    var s3 := Next(s2, r, a2);
    var a3 := BatchStarts(1, LEASE_MS, [id]);
    assert s3.rows[id].nextAttemptAt == LEASE_MS;
    assert Possible(s3, b, a3);
    var s4 := Next(s3, r, a3);
    var a4 := EventSettles(1, true);
    assert s4.batches[1] == Batch(LEASE_MS, [id], s4.rows);
    var s5 := Next(s4, r, a4);
    var a5 := EventSettles(0, false);
    assert s5.batches[0] == s2.batches[0] && s5.rows[id].status.Processed?;
    var s6 := Next(s5, r, a5);
    var states, actions := [s0, s1, s2, s3, s4, s5, s6], [a0, a1, a2, a3, a4, a5];
    assert Run(r, b, states, actions);
  }

  /**
   Processed is final in every run if and only if there is no second worker or every batch
   settles before the lease it took runs out.
   */
  lemma ProcessedIsFinalIffLeaseOutlives(r: Retry, b: Bounds)
    requires b.batchSize >= 1
    ensures AlwaysFinal(r, b) <==> b.workers <= 1 || b.settleWithin < LEASE_MS
  {
    if b.workers <= 1 || b.settleWithin < LEASE_MS {
      forall states: seq<Pool>, actions: seq<Action> | Run(r, b, states, actions) ensures Final(states) {
        forall i, j, id | 0 <= i <= j < |states| && id in states[i].rows && states[i].rows[id].status.Processed?
          ensures id in states[j].rows && states[j].rows[id] == states[i].rows[id]
        {
          ProcessedStays(r, b, states, actions, i, j, id);
        }
      }
    } else {
      LateFailureReopens(r, b, "");
      var states: seq<Pool>, actions: seq<Action> :|
        Run(r, b, states, actions) && |states| == 7
        && "" in states[5].rows && states[5].rows[""].status.Processed?
        && "" in states[6].rows && states[6].rows[""].status.Failed?;
      assert !Final(states);
    }
  }

  // ---------------------------------------------------------------- nothing is stranded

  /** With any number of workers and however late they settle, unprocessed events stay scheduled. */
  lemma {:induction false} NothingIsStranded(r: Retry, b: Bounds, states: seq<Pool>, actions: seq<Action>, i: nat)
    requires Usable(r) && Run(r, b, states, actions) && i < |states|
    ensures Scheduled(states[i].rows, r)
    ensures forall w | w in states[i].batches :: states[i].batches[w].now <= states[i].clock
    ensures i > 0 ==> states[i - 1].rows.Keys <= states[i].rows.Keys
  {
    if i > 0 {
      var k := i - 1;
      NothingIsStranded(r, b, states, actions, k);
      assert Possible(states[k], b, actions[k]) && states[k + 1] == Next(states[k], r, actions[k]);
      StepKeepsSchedule(states[k], r, b, actions[k]);
    }
  }

  lemma StepKeepsSchedule(s: Pool, r: Retry, b: Bounds, a: Action)
    requires Usable(r) && Possible(s, b, a) && Scheduled(s.rows, r)
    requires forall w | w in s.batches :: s.batches[w].now <= s.clock
    ensures Scheduled(Next(s, r, a).rows, r) && s.rows.Keys <= Next(s, r, a).rows.Keys
    ensures forall w | w in Next(s, r, a).batches :: Next(s, r, a).batches[w].now <= Next(s, r, a).clock
  {
    if a.EventSettles? {
      var attempts := ClaimedAttempts(s.batches[a.worker].snapshot, s.batches[a.worker].left[0]);
      BackoffIsMonotone(r, attempts, attempts);
    }
  }
}
