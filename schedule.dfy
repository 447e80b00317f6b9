/** The scheduler as a pure state machine: one call of the miner's poll, the draining of the
    producer's completion stream, one whole turn of the block-production task, and a run of
    turns interleaved with what the environment delivers between them. The classes in module
    Service are proved to behave exactly as these functions say. */
module Schedule {
  import opened Primitives

  /** The miner's `has_pending_txs`: `None` unknown, `Some(true)` pending,
      `Some(false)` known-empty. */
  type Readiness = Option<bool>

  /** The flag after draining the notifications `notes`: every notification drained sets it
      to pending, so some notification leaves it pending, however many there were. */
  function AfterDrain(flag: Readiness, notes: seq<Handle>): (f: Readiness)
    decreases |notes|
    ensures notes != [] ==> f == Some(true)
    ensures notes == [] ==> f == flag
  {
    if notes == [] then flag else AfterDrain(Some(true), notes[1..])
  }

  /** What one miner poll yields and leaves behind; `queried` records whether the pool was asked. */
  datatype MinerStep = MinerStep(poll: Poll<seq<Tx>>, flag: Readiness, pool: seq<Tx>, queried: bool)

  /** One poll of the miner, started with readiness `flag`, notifications `notes` buffered and
      ready transactions `pool`. */
  function MinerPoll(flag: Readiness, notes: seq<Handle>, pool: seq<Tx>): (r: MinerStep)
    // the pool is asked exactly when the drained flag is not known-empty
    ensures r.queried <==> AfterDrain(flag, notes) != Some(false)
    // a batch is returned exactly when the pool was asked and had something
    ensures r.poll.Ready? <==> r.queried && pool != []
    // a batch is the whole pool in pool order, never empty, and the flag becomes known-empty
    ensures r.poll.Ready? ==> r.poll.value == pool && r.poll.value != [] && r.pool == [] && r.flag == Some(false)
    // otherwise the pool is untouched and the flag is the one the drain left
    ensures r.poll.Pending? ==> r.pool == pool && r.flag == AfterDrain(flag, notes)
  {
    var drained := AfterDrain(flag, notes);
    if drained == Some(false) then MinerStep(Pending, drained, pool, false)
    else if pool == [] then MinerStep(Pending, drained, pool, true)
    else MinerStep(Ready(pool), Some(false), [], true)
  }

  function GasOf(o: Outcome): nat
  {
    if o.Ok? then o.value.stats.l1GasUsed else 0
  }

  function StepsOf(o: Outcome): nat
  {
    if o.Ok? then o.value.stats.cairoStepsUsed else 0
  }

  /** The L1 gas of the mined blocks among `outcomes`; a failure counts for nothing. */
  function TotalGas(outcomes: seq<Outcome>): nat
  {
    if outcomes == [] then 0 else GasOf(outcomes[0]) + TotalGas(outcomes[1..])
  }

  /** The Cairo steps of the mined blocks among `outcomes`; a failure counts for nothing. */
  function TotalSteps(outcomes: seq<Outcome>): nat
  {
    if outcomes == [] then 0 else StepsOf(outcomes[0]) + TotalSteps(outcomes[1..])
  }

  /** The task's reaction to one outcome of the completion stream. */
  function Record(m: Metrics, o: Outcome): Metrics
  {
    match o
    case Ok(outcome) =>
      Metrics(m.l1GasProcessedTotal + outcome.stats.l1GasUsed,
              m.cairoStepsProcessedTotal + outcome.stats.cairoStepsUsed)
    case Err(_) => m
  }

  /** The metrics after the task drains `outcomes`, oldest first: each counter grows by exactly
      the total over the mined blocks. */
  function Accumulate(m: Metrics, outcomes: seq<Outcome>): (r: Metrics)
    decreases |outcomes|
    ensures r.l1GasProcessedTotal == m.l1GasProcessedTotal + TotalGas(outcomes)
    ensures r.cairoStepsProcessedTotal == m.cairoStepsProcessedTotal + TotalSteps(outcomes)
  {
    if outcomes == [] then m else Accumulate(Record(m, outcomes[0]), outcomes[1..])
  }

  /** Everything a turn of the task reads or changes: the miner's flag and the notifications
      buffered for it, the pool and the number of queries made to it, the producer's unread
      outcomes and the log of batches queued to it, and the task's metrics. */
  datatype Snapshot = Snapshot(
    flag: Readiness,
    notes: seq<Handle>,
    pool: seq<Tx>,
    takes: nat,
    outcomes: seq<Outcome>,
    queued: seq<seq<Tx>>,
    metrics: Metrics)

  /** Whether the next miner poll from `s` returns a batch. */
  predicate WillMine(s: Snapshot)
  {
    s.pool != [] && AfterDrain(s.flag, s.notes) != Some(false)
  }

  /** The outcomes left unread by a turn from `s` whose batch, if it queues one, the engine
      reports as `reported` within the turn. */
  function Produced(s: Snapshot, reported: seq<Outcome>): seq<Outcome>
  {
    if WillMine(s) then reported else []
  }

  /** The result of one round of a turn: the state it leaves and whether a batch was queued. */
  datatype RoundResult = RoundResult(next: Snapshot, progressed: bool)

  /** One round of a turn from `s`: drain every buffered outcome into the metrics, poll the
      miner, and queue the batch it returns, for which the engine then reports `reported`. */
  function Round(s: Snapshot, reported: seq<Outcome>): (r: RoundResult)
    // a round queues a batch exactly when the miner has one
    ensures r.progressed == WillMine(s)
    // the batch is the whole pool, queued once and unchanged
    ensures r.next.queued == s.queued + (if r.progressed then [s.pool] else [])
    ensures r.next.pool == if r.progressed then [] else s.pool
    // what is left unread afterwards is only what the engine reported for the new batch
    ensures r.next.outcomes == if r.progressed then reported else []
    // after a batch, the miner has nothing more to give until something new arrives
    ensures r.progressed ==> !WillMine(r.next)
  {
    var m := Accumulate(s.metrics, s.outcomes);
    var step := MinerPoll(s.flag, s.notes, s.pool);
    var t := s.(flag := step.flag, notes := [], pool := step.pool,
                takes := s.takes + (if step.queried then 1 else 0), outcomes := [], metrics := m);
    match step.poll
    case Pending => RoundResult(t, false)
    case Ready(batch) => RoundResult(t.(queued := s.queued + [batch], outcomes := reported), true)
  }

  /** One turn of the task from `s`: rounds until one finds the miner with nothing. The engine
      reports `reported` for the batch the turn queues, if any. */
  function Turn(s: Snapshot, reported: seq<Outcome>): (r: Snapshot)
    decreases if WillMine(s) then 1 else 0
    // every outcome and every notification has been consumed
    ensures r.outcomes == [] && r.notes == []
    // the loop stopped because the miner, polled again, has nothing
    ensures !WillMine(r)
    // the one batch the miner returned, if any, is queued once and unchanged; nothing else is
    ensures r.queued == s.queued + (if WillMine(s) then [s.pool] else [])
    ensures r.pool == if WillMine(s) then [] else s.pool
    // known-empty after a batch; otherwise the flag the drain left (a pending flag survives an empty take)
    ensures r.flag == if WillMine(s) then Some(false) else AfterDrain(s.flag, s.notes)
    // no transaction is lost or repeated between the pool and the producer
    ensures Flatten(r.queued) + r.pool == Flatten(s.queued) + s.pool
    // the pool is asked at most once, and only if the drained flag is not known-empty
    ensures r.takes == s.takes + (if AfterDrain(s.flag, s.notes) != Some(false) then 1 else 0)
  {
    var round := Round(s, reported);
    if round.progressed then
      FlattenAppend(s.queued, s.pool);
      Turn(round.next, reported)
    else
      round.next
  }

  /** A turn adds to each counter exactly the total over the mined blocks among the outcomes it
      found buffered and those the engine reported for the batch the turn queued. */
  lemma TurnMetrics(s: Snapshot, reported: seq<Outcome>)
    ensures Turn(s, reported).metrics.l1GasProcessedTotal
         == s.metrics.l1GasProcessedTotal + TotalGas(s.outcomes) + TotalGas(Produced(s, reported))
    ensures Turn(s, reported).metrics.cairoStepsProcessedTotal
         == s.metrics.cairoStepsProcessedTotal + TotalSteps(s.outcomes) + TotalSteps(Produced(s, reported))
  {
  }

  /** Splitting the drained outcomes splits the totals. */
  lemma {:induction false} TotalsAppend(a: seq<Outcome>, b: seq<Outcome>)
    ensures TotalGas(a + b) == TotalGas(a) + TotalGas(b)
    ensures TotalSteps(a + b) == TotalSteps(a) + TotalSteps(b)
  {
    if a != [] {
      assert (a + b)[1..] == a[1..] + b;
      TotalsAppend(a[1..], b);
    } else {
      assert a + b == b;
    }
  }

  /** A failed block-production attempt, wherever it sits in the stream, leaves both counters
      as they would have been without it. */
  lemma FailureCountsForNothing(a: seq<Outcome>, e: string, b: seq<Outcome>)
    ensures TotalGas(a + [Err(e)] + b) == TotalGas(a + b)
    ensures TotalSteps(a + [Err(e)] + b) == TotalSteps(a + b)
  {
    TotalsAppend(a + [Err(e)], b);
    TotalsAppend(a, [Err(e)]);
    TotalsAppend(a, b);
  }

  /** A turn of a freshly built miner (flag unknown, no notification yet) asks the pool and queues
      whatever was already resident in it. */
  lemma StartupTurnTakesResidentTxs(s: Snapshot, reported: seq<Outcome>)
    requires s.flag == None && s.notes == []
    ensures Turn(s, reported).takes == s.takes + 1
    ensures Turn(s, reported).queued == s.queued + (if s.pool != [] then [s.pool] else [])
    ensures Turn(s, reported).pool == []
  {
  }

  /** The readiness invariant: while a transaction sits in the pool, the miner does not believe
      the pool known-empty, or a notification for it is still buffered. */
  predicate NoStrandedTx(s: Snapshot)
  {
    s.pool != [] ==> s.flag != Some(false) || s.notes != []
  }

  /** Under the readiness invariant a turn queues every transaction in the pool, and the
      invariant still holds afterwards. */
  lemma TurnLeavesNoTxBehind(s: Snapshot, reported: seq<Outcome>)
    requires NoStrandedTx(s)
    ensures Turn(s, reported).pool == []
    ensures Flatten(Turn(s, reported).queued) == Flatten(s.queued) + s.pool
    ensures NoStrandedTx(Turn(s, reported))
  {
  }

  /** A turn with the flag known-empty and no notification only drains the outcomes. */
  lemma QuietTurn(s: Snapshot, reported: seq<Outcome>)
    requires s.flag == Some(false) && s.notes == []
    ensures Turn(s, reported) == s.(outcomes := [], metrics := Accumulate(s.metrics, s.outcomes))
  {
  }

  /** A turn from a pending flag and an empty pool asks the pool, finds nothing, queues nothing,
      and leaves the flag pending, whatever notifications it drains. */
  lemma PendingTurnRequeries(s: Snapshot, reported: seq<Outcome>)
    requires s.flag == Some(true) && s.pool == []
    ensures Turn(s, reported).takes == s.takes + 1 && Turn(s, reported).queued == s.queued
    ensures Turn(s, reported).pool == [] && Turn(s, reported).flag == Some(true)
  {
  }

  /** What the environment delivers before a turn: transactions becoming ready in the pool,
      notifications on the channel, and outcomes of blocks the producer closed on its own; and
      what the engine reports, within the turn, for the batch the turn queues. */
  datatype Delivery = Delivery(txs: seq<Tx>, notes: seq<Handle>, completions: seq<Outcome>, reported: seq<Outcome>)

  function Deliver(s: Snapshot, d: Delivery): Snapshot
  {
    s.(pool := s.pool + d.txs, notes := s.notes + d.notes, outcomes := s.outcomes + d.completions)
  }

  /** The pool announces every transaction it makes ready. */
  predicate Announced(d: Delivery)
  {
    d.txs != [] ==> d.notes != []
  }

  /** Every transaction delivered by `ds`, in delivery order. */
  function Delivered(ds: seq<Delivery>): seq<Tx>
  {
    if ds == [] then [] else ds[0].txs + Delivered(ds[1..])
  }

  /** Turns of the task, each after the environment delivered the next element of `ds`. */
  function Run(s: Snapshot, ds: seq<Delivery>): Snapshot
    decreases |ds|
  {
    if ds == [] then s else Run(Turn(Deliver(s, ds[0]), ds[0].reported), ds[1..])
  }

  /** Over any run, every delivered transaction is either queued to the producer exactly once,
      in delivery order, or still in the pool. */
  lemma {:induction false} RunConservesTxs(s: Snapshot, ds: seq<Delivery>)
    ensures Flatten(Run(s, ds).queued) + Run(s, ds).pool == Flatten(s.queued) + s.pool + Delivered(ds)
    decreases |ds|
  {
    if ds != [] {
      var t := Turn(Deliver(s, ds[0]), ds[0].reported);
      RunConservesTxs(t, ds[1..]);
      AppendAssoc(Flatten(s.queued), s.pool, ds[0].txs);
      AppendAssoc(Flatten(s.queued) + s.pool, ds[0].txs, Delivered(ds[1..]));
    }
  }

  /** Over any run, the batches queued earlier stay as they were, and a producer log without an
      empty batch never gets one. */
  lemma {:induction false} RunQueuesOnlyNonEmptyBatches(s: Snapshot, ds: seq<Delivery>)
    requires [] !in s.queued
    ensures s.queued <= Run(s, ds).queued
    ensures [] !in Run(s, ds).queued
    decreases |ds|
  {
    if ds != [] {
      RunQueuesOnlyNonEmptyBatches(Turn(Deliver(s, ds[0]), ds[0].reported), ds[1..]);
    }
  }

  /** When the readiness invariant holds at the start (as it does for a new miner, whose flag is
      unknown) and the pool announces every transaction, the invariant holds after every turn and
      every turn leaves nothing in the pool: all delivered transactions have been queued. */
  lemma {:induction false} RunQueuesEveryAnnouncedTx(s: Snapshot, ds: seq<Delivery>)
    requires NoStrandedTx(s)
    requires forall i | 0 <= i < |ds| :: Announced(ds[i])
    ensures NoStrandedTx(Run(s, ds))
    ensures ds != [] ==> Run(s, ds).pool == []
    ensures ds != [] ==> Flatten(Run(s, ds).queued) == Flatten(s.queued) + s.pool + Delivered(ds)
    decreases |ds|
  {
    if ds != [] {
      var d := Deliver(s, ds[0]);
      assert Announced(ds[0]);
      assert NoStrandedTx(d);
      TurnLeavesNoTxBehind(d, ds[0].reported);
      RunQueuesEveryAnnouncedTx(Turn(d, ds[0].reported), ds[1..]);
      RunConservesTxs(s, ds);
    }
  }

  /** Once the flag is known-empty, turns in which no notification arrives never ask the pool
      and queue nothing, whatever the pool receives meanwhile. */
  lemma {:induction false} QuietTurnsSkipThePool(s: Snapshot, ds: seq<Delivery>)
    requires s.flag == Some(false) && s.notes == []
    requires forall i | 0 <= i < |ds| :: ds[i].notes == []
    ensures Run(s, ds).takes == s.takes
    ensures Run(s, ds).queued == s.queued
    ensures Run(s, ds).flag == Some(false)
    ensures Run(s, ds).pool == s.pool + Delivered(ds)
    decreases |ds|
  {
    if ds != [] {
      var d := Deliver(s, ds[0]);
      QuietTurn(d, ds[0].reported);
      QuietTurnsSkipThePool(Turn(d, ds[0].reported), ds[1..]);
      AppendAssoc(s.pool, ds[0].txs, Delivered(ds[1..]));
    }
  }

  /** A pending flag survives a query that finds the pool empty (a notification for a transaction
      no longer ready), so every later turn asks the pool again while nothing becomes ready. */
  lemma {:induction false} PendingFlagRequeriesEveryTurn(s: Snapshot, ds: seq<Delivery>)
    requires s.flag == Some(true) && s.pool == []
    requires forall i | 0 <= i < |ds| :: ds[i].txs == []
    ensures Run(s, ds).takes == s.takes + |ds|
    ensures Run(s, ds).flag == Some(true)
    ensures Run(s, ds).queued == s.queued
    decreases |ds|
  {
    if ds != [] {
      var d := Deliver(s, ds[0]);
      PendingTurnRequeries(d, ds[0].reported);
      PendingFlagRequeriesEveryTurn(Turn(d, ds[0].reported), ds[1..]);
    }
  }
}
