# Katana block-production scheduler, modelled in Dafny

This project models the scheduler at the heart of the Katana sequencer node
(`crates/katana/core/src/service/mod.rs`). The scheduler has two parts that share state.

- **`TransactionMiner`** turns two things into one poll: the pool's channel of "transaction
  ready" notifications, and the pool's "take every ready transaction" operation. It keeps a
  readiness flag `has_pending_txs: Option<bool>` with three states: `None` (unknown),
  `Some(true)` (pending) and `Some(false)` (known-empty).
- **`BlockProductionTask`** is the endless future of the node. On each turn it:
  1. drains the block producer's completion stream, adding each mined block's L1 gas and Cairo
     steps to the metrics;
  2. asks the miner for a batch and queues it to the producer;
  3. repeats until the miner has nothing.

How the model is built:

- Its form follows the source's. The miner and the task are classes with mutable fields, and
  their draining `while let` loops are `while` loops with invariants.
- Each method is proved to do exactly what a pure function of module `Schedule` says:
  - `TransactionMiner.Poll` matches `MinerPoll`;
  - `BlockProductionTask.DrainCompletions` matches `Accumulate`;
  - `BlockProductionTask.Poll` matches `Turn`, which is built from one `Round` per pass of the
    source's outer `loop`.
- The lemmas about those functions state what the scheduler promises over one turn and over
  any run of turns.

Files:

- `primitives.dfy`: transactions, handles, `Poll`, `Option`, `Result`, outcomes and metrics.
- `collaborators.dfy`: the interfaces the core consumes, as small classes:
  - `Receiver`, the fused notification channel;
  - `TxPool`, with `take_transactions`;
  - `BlockProducer`, with `queue` and its completion stream.

  `Send`, `Close`, `AddTransaction` and `Complete` are the environment's side of these
  interfaces. They exist so that clients can drive the model.
- `schedule.dfy`: the reference state machine and its lemmas.
- `service.dfy`: `TransactionMiner` and `BlockProductionTask`.
- `scenarios.dfy`: client methods that build a node and assert, from the contracts alone, what
  happens in these cases:
  - transactions already in the pool at startup;
  - a spurious notification;
  - an announced transaction and an unannounced one;
  - a failed block followed by a mined one in the same drain.

The producer's engine is abstracted in two ways:

- The producer's constant `mine` gives the outcomes the engine reports for a queued batch before
  the task's next poll of the stream. For an instant-mining producer that is one block; for a
  producer whose block closes on a timer it is none. The pure functions take what the engine
  reports for the turn's batch as a plain value, `reported`, and the task's `Poll` passes
  `mine` of the pool for it. A run of turns takes one such value per turn, so its lemmas hold
  for any engine.
- Outcomes that arrive on their own are added by `Complete` between turns.

## Model

| member | source | states |
|---|---|---|
| `Schedule.AfterDrain` | crates/katana/core/src/service/mod.rs:127-130 | after draining, the flag is `Some(true)` if at least one notification was drained, however many there were; otherwise it is the flag as it was |
| `Schedule.MinerPoll` | crates/katana/core/src/service/mod.rs:126-146 | the pool is queried exactly when the drained flag is not `Some(false)`. A batch is returned exactly when the query found something. A batch is the whole pool in pool order and is never empty; the pool is then emptied and the flag becomes `Some(false)`. Otherwise the pool is untouched and the flag is the drained one |
| `Schedule.Accumulate` | crates/katana/core/src/service/mod.rs:79-94 | draining outcomes in FIFO order raises each counter by exactly the total of `l1_gas_used` (resp. `cairo_steps_used`) over the `Ok` outcomes |
| `Schedule.Round` | crates/katana/core/src/service/mod.rs:78-103 | one pass of the outer loop queues a batch exactly when the miner has one. The batch is the whole pool, queued once and unchanged. Only the new batch's outcomes remain unread. After a batch, the miner has nothing more |
| `Schedule.Turn` | crates/katana/core/src/service/mod.rs:73-107 | a turn consumes every outcome and notification and ends exactly when the miner, polled again, is `Pending`. It queues at most the one batch the miner returned, and no transaction is lost or duplicated between pool and producer. It queries the pool at most once. The final flag is `Some(false)` after a batch, and otherwise the drained flag |
| `Schedule.TurnMetrics` | crates/katana/core/src/service/mod.rs:79-99 | a turn adds to the counters the totals over the outcomes it found buffered plus those the batch it queued produced |
| `Schedule.TotalsAppend` | crates/katana/core/src/service/mod.rs:84-87 | the totals of the outcomes drained in two pieces add up |
| `Schedule.FailureCountsForNothing` | crates/katana/core/src/service/mod.rs:90-92 | an `Err` outcome anywhere in the stream leaves both counters unchanged |
| `Schedule.StartupTurnTakesResidentTxs` | crates/katana/core/src/service/mod.rs:122-138 | with the initial `None` flag and no notification, the first turn still queries the pool and queues whatever it already holds |
| `Schedule.TurnLeavesNoTxBehind` | crates/katana/core/src/service/mod.rs:127-145 | if no transaction is stranded at the start (pool non-empty implies flag not `Some(false)` or a notification buffered), a turn queues the entire pool and keeps that invariant |
| `Schedule.RunConservesTxs` | crates/katana/core/src/service/mod.rs:96-99 | over any run, the transactions queued, followed by those still in the pool, equal those initially in the pool followed by those delivered, in order: none is lost or queued twice |
| `Schedule.RunQueuesOnlyNonEmptyBatches` | crates/katana/core/src/service/mod.rs:140-145 | over any run, earlier batches are kept unchanged, and a producer log without an empty batch never gets one |
| `Schedule.RunQueuesEveryAnnouncedTx` | crates/katana/core/src/service/mod.rs:127-145 | starting without a stranded transaction, and with the pool announcing every transaction, the invariant holds after every turn. Every turn leaves the pool empty, so all delivered transactions are queued |
| `Schedule.QuietTurn` | crates/katana/core/src/service/mod.rs:132-134 | with the flag `Some(false)` and no notification, a turn changes nothing but draining the outcomes into the metrics: the pool is not asked, and pool and flag are unchanged |
| `Schedule.PendingTurnRequeries` | crates/katana/core/src/service/mod.rs:140-142 | with the flag `Some(true)` and an empty pool, a turn asks the pool, queues nothing and leaves the flag `Some(true)`, whatever notifications it drains |
| `Schedule.QuietTurnsSkipThePool` | crates/katana/core/src/service/mod.rs:132-134 | with the flag `Some(false)` and no notification arriving, no turn queries the pool or queues anything, and the flag stays `Some(false)` |
| `Schedule.PendingFlagRequeriesEveryTurn` | crates/katana/core/src/service/mod.rs:140-142 | a `Some(true)` flag survives an empty take. While nothing becomes ready, every turn queries the pool again, even with no new notification |
| `Service.TransactionMiner.constructor` | crates/katana/core/src/service/mod.rs:122-124 | a new miner starts with the flag unknown (`None`) on the given receiver |
| `Service.TransactionMiner.Poll` | crates/katana/core/src/service/mod.rs:126-146 | the result, the new flag, the new pool and the number of pool queries are exactly those of `MinerPoll` on the old state. The notification buffer is empty afterwards |
| `Service.BlockProductionTask.constructor` | crates/katana/core/src/service/mod.rs:56-62 | the task holds the given pool, miner and producer, with both counters at zero |
| `Service.BlockProductionTask.DrainCompletions` | crates/katana/core/src/service/mod.rs:79-94 | reads the completion stream until it is empty. The metrics become `Accumulate` of the old metrics over the old outcomes. The queued batches are unchanged |
| `Service.BlockProductionTask.Poll` | crates/katana/core/src/service/mod.rs:73-107 | the task's new state is `Turn` of the old one, and the result is always `Pending`. The outcome queue is empty afterwards. The queued batches grow by the miner's batch and nothing else. The counters grow by the totals over the drained `Ok` outcomes. Under the readiness invariant the pool is left empty |
| `Collaborators.Receiver.PollNext` | crates/katana/core/src/service/mod.rs:128 | it yields the oldest buffered handle. When the buffer is empty it yields end of stream if the channel is closed, and `Pending` otherwise |
| `Collaborators.TxPool.TakeTransactions` | crates/katana/core/src/service/mod.rs:137-138 | it returns every ready transaction in pool order, empties the pool and counts one query |
| `Collaborators.BlockProducer.PollNext` | crates/katana/core/src/service/mod.rs:79 | it yields the oldest unread outcome, or `Pending` when there is none |
| `Collaborators.BlockProducer.Queue` | crates/katana/core/src/service/mod.rs:98-99 | it appends the batch to the log of queued batches, and the engine's outcomes for it to the unread outcomes |

## Left out

- Wakers, `Context` registration and the guarantee that no wake-up is lost. These belong to the
  async runtime. Readiness of the channel and of the stream is modelled only as "buffer
  non-empty or empty".
- Concurrency. Nothing reaches the pool, the channel or the producer during a turn except what
  the turn itself does. As a result, a turn makes at most two passes of the outer loop: the
  second finds the flag `Some(false)` and no notification.
- The `Arc` sharing of the `BlockProducer`, and its executor and block assembly. The producer is
  a log of queued batches plus an outcome queue. Its engine is the constant `mine`.
- The `info!`/`error!` logging at mod.rs:82 and mod.rs:91. An `Err` outcome is read and ignored.
- The `u64` casts at mod.rs:86-87. Both counters are unbounded `nat` additions.
- The conversions between the pool's transaction type and the executable type
  (`tx.tx.as_ref().clone()`, `Into::into`). They are the identity on an opaque `Tx`.
- Closure of the channel beyond "a closed channel yields no further items". The design
  description says a closed channel makes the miner never ready again. The code drains nothing
  from a closed channel but still queries the pool unless the flag is `Some(false)`, and the
  model follows the code.
- The draining `while let` is the method `DrainCompletions`, which `Poll` calls. Each pass of
  the outer `loop` is specified by `Round`. Both are the source's own loops, split into pieces
  so that the verifier handles them separately.
- The readiness flag stays an `Option<bool>`, as in the source, rather than a three-variant
  enumeration.
