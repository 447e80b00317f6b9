/** Clients of the scheduler: runs of the node's production task built from the contracts alone,
    following the behaviour the design describes for startup, spurious notifications and
    failed blocks. */
module Scenarios {
  import opened Primitives
  import opened Collaborators
  import opened Schedule
  import opened Service

  /** An instant-mining engine: every batch becomes one block using 500 gas and 1000 steps. */
  function InstantBlock(batch: seq<Tx>): seq<Outcome>
  {
    [Ok(MinedBlockOutcome(1, ExecutionStats(500, 1000)))]
  }

  /** A node as startup wires it: an open channel with nothing sent yet, `initial` already ready
      in the pool, a new miner on that channel, and an instant-mining producer. */
  method NewNode(initial: seq<Tx>) returns (task: BlockProductionTask)
    ensures fresh(task) && fresh(task.miner) && fresh(task.miner.rx) && fresh(task.pool) && fresh(task.blockProducer)
    ensures task.State() == Snapshot(None, [], initial, 0, [], [], Metrics(0, 0))
    ensures !task.miner.rx.closed && task.blockProducer.mine == InstantBlock
  {
    var rx := new Receiver();
    var pool := new TxPool(initial);
    var miner := new TransactionMiner(rx);
    var producer := new BlockProducer(InstantBlock);
    task := new BlockProductionTask(pool, miner, producer);
  }

  /** Three transactions at startup and no notification yet: the first turn still asks the
      pool, queues the three as one batch, and records the block they made; a second turn with
      nothing new does not ask the pool. */
  method StartupPicksUpResidentTxs()
  {
    var task := NewNode([Tx(1), Tx(2), Tx(3)]);
    var r := task.Poll();
    assert r == Pending;
    assert TotalGas(InstantBlock([Tx(1), Tx(2), Tx(3)])) == 500;
    assert TotalSteps(InstantBlock([Tx(1), Tx(2), Tx(3)])) == 1000;
    assert task.State() == Snapshot(Some(false), [], [], 1, [], [[Tx(1), Tx(2), Tx(3)]], Metrics(500, 1000));

    r := task.Poll();
    assert task.State().takes == 1 && task.State().queued == [[Tx(1), Tx(2), Tx(3)]];
  }

  /** A notification for a transaction that is no longer ready: the take finds nothing, the
      flag stays pending, and the next turn asks the pool again without a new notification. */
  method SpuriousNotificationRequeries()
  {
    var task := NewNode([Tx(1)]);
    var r := task.Poll();
    assert task.miner.hasPendingTxs == Some(false) && task.pool.takes == 1;

    var sent := task.miner.rx.Send(1);
    r := task.Poll();
    assert task.pool.takes == 2 && task.miner.hasPendingTxs == Some(true);
    r := task.Poll();
    assert task.pool.takes == 3 && task.miner.hasPendingTxs == Some(true);
    assert task.blockProducer.queued == [[Tx(1)]];
  }

  /** A transaction the pool announces after the flag became known-empty is queued by the next
      turn. */
  method AnnouncedTxIsPickedUp()
  {
    var task := NewNode([Tx(1)]);
    var r := task.Poll();
    assert task.blockProducer.queued == [[Tx(1)]] && task.miner.hasPendingTxs == Some(false);

    var sent := task.miner.rx.Send(2);
    task.pool.AddTransaction(Tx(2));
    assert task.State().notes == [2] && task.State().pool == [Tx(2)];
    r := task.Poll();
    assert task.blockProducer.queued == [[Tx(1)], [Tx(2)]] && task.pool.txs == [];
  }

  /** A transaction that reaches the pool without a notification while the flag is known-empty
      is not taken: the pool is not asked. */
  method UnannouncedTxStaysInPool()
  {
    var task := NewNode([Tx(1)]);
    var r := task.Poll();
    assert task.blockProducer.queued == [[Tx(1)]] && task.miner.hasPendingTxs == Some(false);

    task.pool.AddTransaction(Tx(2));
    assert task.State().pool == [Tx(2)] && task.State().notes == [];
    r := task.Poll();
    assert task.blockProducer.queued == [[Tx(1)]] && task.pool.txs == [Tx(2)] && task.pool.takes == 1;
  }

  /** The producer reports a failure and then a block in the same drain: the failure is passed
      over, the block is counted, and nothing is queued. */
  method FailureThenSuccessInOneDrain()
  {
    var task := NewNode([]);
    task.blockProducer.Complete(Err("execution failed"));
    task.blockProducer.Complete(Ok(MinedBlockOutcome(2, ExecutionStats(300, 700))));
    var outcomes := task.blockProducer.outcomes;
    assert outcomes == [Err("execution failed"), Ok(MinedBlockOutcome(2, ExecutionStats(300, 700)))];
    var mined := outcomes[1..];
    assert mined == [Ok(MinedBlockOutcome(2, ExecutionStats(300, 700)))] && mined[1..] == [];
    assert TotalGas(mined) == 300 && TotalSteps(mined) == 700;
    assert TotalGas(outcomes) == 300 && TotalSteps(outcomes) == 700;
    var r := task.Poll();
    assert task.metrics == Metrics(300, 700);
    assert task.blockProducer.outcomes == [] && task.blockProducer.queued == [];
  }
}
