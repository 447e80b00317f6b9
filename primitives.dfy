/** Values shared by the scheduler and its collaborators: transactions, notification handles,
    the outcome of a block-production attempt and the cumulative metrics. */
module Primitives {

  /** The hash of a transaction as carried on the pool's notification channel (a field element);
      the scheduler only counts that one arrived. */
  type Handle = nat

  /** A transaction taken from the pool. Opaque to the scheduler: converting it to the form the
      block producer executes is the identity here. */
  datatype Tx = Tx(hash: nat)

  datatype Option<T> = None | Some(value: T)

  datatype Result<T, E> = Ok(value: T) | Err(error: E)

  /** Readiness of an asynchronous source: a value now, or nothing yet. */
  datatype Poll<T> = Ready(value: T) | Pending

  /** Resources a mined block used. */
  datatype ExecutionStats = ExecutionStats(l1GasUsed: nat, cairoStepsUsed: nat)

  /** What the block producer reports for a block it closed. */
  datatype MinedBlockOutcome = MinedBlockOutcome(blockNumber: nat, stats: ExecutionStats)

  /** One item of the block producer's completion stream: a mined block or a failure message. */
  type Outcome = Result<MinedBlockOutcome, string>

  /** The two cumulative counters the task keeps. */
  datatype Metrics = Metrics(l1GasProcessedTotal: nat, cairoStepsProcessedTotal: nat)

  /** Every transaction of a list of batches, batch after batch. */
  function Flatten(batches: seq<seq<Tx>>): seq<Tx>
  {
    if batches == [] then [] else batches[0] + Flatten(batches[1..])
  }

  /** Appending a batch appends its transactions. */
  lemma {:induction false} FlattenAppend(batches: seq<seq<Tx>>, batch: seq<Tx>)
    ensures Flatten(batches + [batch]) == Flatten(batches) + batch
  {
    if batches == [] {
      assert [] + [batch] == [batch];
      assert Flatten([batch]) == batch + Flatten([]);
    } else {
      assert (batches + [batch])[1..] == batches[1..] + [batch];
      FlattenAppend(batches[1..], batch);
    }
  }

  /** Concatenation regroups freely. */
  lemma AppendAssoc<T>(a: seq<T>, b: seq<T>, c: seq<T>)
    ensures a + b + c == a + (b + c)
  {
  }
}
