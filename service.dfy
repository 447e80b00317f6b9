/** The block-production scheduler: the transaction miner, which turns the pool's notifications
    and its "take every ready transaction" operation into one poll, and the block-production
    task, which drains the producer's completions and feeds it the miner's batches. Each
    method is proved to do exactly what the matching function of module Schedule says. */
module Service {
  import opened Primitives
  import opened Collaborators
  import opened Schedule

  /** Takes the ready transactions from the pool for the block producer. */
  class TransactionMiner {
    /** Whether there are pending transactions, if known. */
    var hasPendingTxs: Readiness
    /** Receives the hashes of transactions the pool makes ready. */
    const rx: Receiver

    constructor (rx: Receiver)
      ensures this.rx == rx && hasPendingTxs == None
    {
      this.rx := rx;
      hasPendingTxs := None;
    }

    /** Drains the notifications, then, unless the pool is known to be empty, takes every ready
        transaction from it; a batch is returned only if the take found something. */
    method Poll(pool: TxPool) returns (r: Poll<seq<Tx>>)
      modifies this, rx, pool
      ensures var step := MinerPoll(old(hasPendingTxs), old(rx.buffered), old(pool.txs));
        r == step.poll && hasPendingTxs == step.flag && pool.txs == step.pool
        && pool.takes == old(pool.takes) + (if step.queried then 1 else 0)
      ensures rx.buffered == [] && rx.closed == old(rx.closed)
    {
      var next := rx.PollNext();
      while next.Ready? && next.value.Some?
        invariant rx.closed == old(rx.closed)
        invariant pool.txs == old(pool.txs) && pool.takes == old(pool.takes)
        invariant !(next.Ready? && next.value.Some?) ==> rx.buffered == []
        invariant AfterDrain(hasPendingTxs, (if next.Ready? && next.value.Some? then [next.value.value] else []) + rx.buffered)
               == AfterDrain(old(hasPendingTxs), old(rx.buffered))
        decreases |rx.buffered| + (if next.Ready? && next.value.Some? then 1 else 0)
      {
        assert ([next.value.value] + rx.buffered)[1..] == rx.buffered;
        hasPendingTxs := Some(true);
        next := rx.PollNext();
      }

      if hasPendingTxs == Some(false) {
        return Pending;
      }

      var transactions := pool.TakeTransactions();
      if transactions == [] {
        return Pending;
      }

      hasPendingTxs := Some(false);
      return Ready(transactions);
    }
  }

  /** The endless task that drives block production: each turn it records what the producer
      completed and hands it the miner's next batch, until the miner has nothing. */
  class BlockProductionTask {
    /** Creates new blocks. */
    const blockProducer: BlockProducer
    /** Selects the transactions from the pool. */
    const miner: TransactionMiner
    /** Holds all transactions. */
    const pool: TxPool
    /** Cumulative L1 gas and Cairo steps of the mined blocks. */
    var metrics: Metrics

    constructor (pool: TxPool, miner: TransactionMiner, blockProducer: BlockProducer)
      ensures this.pool == pool && this.miner == miner && this.blockProducer == blockProducer
      ensures metrics == Metrics(0, 0)
    {
      this.blockProducer := blockProducer;
      this.miner := miner;
      this.pool := pool;
      metrics := Metrics(0, 0);
    }

    /** Everything a turn reads or changes, as a value. */
    ghost function State(): Snapshot
      reads this, miner, miner.rx, pool, blockProducer
    {
      Snapshot(miner.hasPendingTxs, miner.rx.buffered, pool.txs, pool.takes,
               blockProducer.outcomes, blockProducer.queued, metrics)
    }

    /** The draining half of a turn: reads the completion stream until it has nothing more,
        adding each mined block's L1 gas and Cairo steps to the counters; a failure is only
        reported (not modelled) and changes nothing. */
    method DrainCompletions()
      modifies this, blockProducer
      ensures metrics == Accumulate(old(metrics), old(blockProducer.outcomes))
      ensures blockProducer.outcomes == [] && blockProducer.queued == old(blockProducer.queued)
    {
      var next := blockProducer.PollNext();
      while next.Ready? && next.value.Some?
        invariant blockProducer.queued == old(blockProducer.queued)
        invariant !(next.Ready? && next.value.Some?) ==> blockProducer.outcomes == []
        invariant Accumulate(metrics, (if next.Ready? && next.value.Some? then [next.value.value] else []) + blockProducer.outcomes)
               == Accumulate(old(metrics), old(blockProducer.outcomes))
        decreases |blockProducer.outcomes| + (if next.Ready? && next.value.Some? then 1 else 0)
      {
        var res := next.value.value;
        assert ([res] + blockProducer.outcomes)[1..] == blockProducer.outcomes;
        match res {
          case Ok(outcome) =>
            var gasUsed := outcome.stats.l1GasUsed;
            var stepsUsed := outcome.stats.cairoStepsUsed;
            metrics := metrics.(l1GasProcessedTotal := metrics.l1GasProcessedTotal + gasUsed,
                                cairoStepsProcessedTotal := metrics.cairoStepsProcessedTotal + stepsUsed);
          case Err(_) =>
        }
        next := blockProducer.PollNext();
      }
    }

    /** One turn: drain the completion stream and queue the miner's batch, again and again,
        until the miner returns nothing; the task itself never completes. */
    method Poll() returns (r: Poll<()>)
      modifies this, miner, miner.rx, pool, blockProducer
      ensures r == Pending
      ensures State() == Turn(old(State()), blockProducer.mine(old(pool.txs)))
      ensures miner.rx.closed == old(miner.rx.closed)
      // the completion stream is drained in full
      ensures blockProducer.outcomes == []
      // at most one batch, the miner's, is queued, and never an empty one
      ensures blockProducer.queued == old(blockProducer.queued) + (if WillMine(old(State())) then [old(pool.txs)] else [])
      // the counters grow by exactly the totals of the mined blocks among the outcomes drained
      ensures metrics.l1GasProcessedTotal == old(metrics.l1GasProcessedTotal)
              + TotalGas(old(blockProducer.outcomes)) + TotalGas(Produced(old(State()), blockProducer.mine(old(pool.txs))))
      ensures metrics.cairoStepsProcessedTotal == old(metrics.cairoStepsProcessedTotal)
              + TotalSteps(old(blockProducer.outcomes)) + TotalSteps(Produced(old(State()), blockProducer.mine(old(pool.txs))))
      // under the readiness invariant, the turn leaves no transaction in the pool and keeps the invariant
      ensures NoStrandedTx(old(State())) ==> pool.txs == [] && NoStrandedTx(State())
    {
      ghost var start := State();
      ghost var reported := blockProducer.mine(pool.txs);
      TurnMetrics(start, reported);
      if NoStrandedTx(start) {
        TurnLeavesNoTxBehind(start, reported);
      }
      while true
        invariant miner.rx.closed == old(miner.rx.closed)
        invariant WillMine(State()) ==> pool.txs == start.pool
        invariant Turn(State(), reported) == Turn(start, reported)
        decreases if WillMine(State()) then 1 else 0
      {
        ghost var head := State();
        DrainCompletions();
        var mined := miner.Poll(pool);
        if mined.Ready? {
          var executables := mined.value;
          blockProducer.Queue(executables);
          assert RoundResult(State(), true) == Round(head, reported);
        } else {
          assert RoundResult(State(), false) == Round(head, reported);
          break;
        }
      }
      return Pending;
    }
  }
}
