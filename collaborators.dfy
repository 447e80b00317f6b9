/** The interfaces the scheduler consumes, reduced to what it observes of them: the receive end
    of the pool's notification channel, the pool's "take every ready transaction" operation,
    and the block producer's queue and completion stream. */
module Collaborators {
  import opened Primitives

  /** The fused receive end of the channel on which the pool announces ready transactions.
      Messages sent before the channel closed are still delivered; after that it yields `None`. */
  class Receiver {
    var buffered: seq<Handle>
    var closed: bool

    constructor ()
      ensures buffered == [] && !closed
    {
      buffered := [];
      closed := false;
    }

    /** The pool's side: announce a transaction; refused once the channel is closed. */
    method Send(h: Handle) returns (ok: bool)
      modifies this
      ensures ok == !old(closed) && closed == old(closed)
      ensures buffered == if ok then old(buffered) + [h] else old(buffered)
    {
      ok := !closed;
      if ok {
        buffered := buffered + [h];
      }
    }

    method Close()
      modifies this
      ensures closed && buffered == old(buffered)
    {
      closed := true;
    }

    /** Non-blocking receive: the oldest buffered handle, or end of stream once closed and
        empty, or nothing yet. */
    method PollNext() returns (r: Poll<Option<Handle>>)
      modifies this
      ensures closed == old(closed)
      ensures old(buffered) != [] ==> r == Ready(Some(old(buffered)[0])) && buffered == old(buffered)[1..]
      ensures old(buffered) == [] ==> buffered == [] && r == if closed then Ready(None) else Pending
    {
      if buffered != [] {
        r := Ready(Some(buffered[0]));
        buffered := buffered[1..];
      } else if closed {
        r := Ready(None);
      } else {
        r := Pending;
      }
    }
  }

  /** The transaction pool, seen as the ready transactions in the pool's own order. `takes`
      counts the queries made to it, so that a model can say when the pool was not asked. */
  class TxPool {
    var txs: seq<Tx>
    ghost var takes: nat

    constructor (initial: seq<Tx>)
      ensures txs == initial && takes == 0
    {
      txs := initial;
      takes := 0;
    }

    method AddTransaction(tx: Tx)
      modifies this
      ensures txs == old(txs) + [tx] && takes == old(takes)
    {
      txs := txs + [tx];
    }

    /** Removes and returns every ready transaction, in pool order. */
    method TakeTransactions() returns (r: seq<Tx>)
      modifies this
      ensures r == old(txs) && txs == [] && takes == old(takes) + 1
    {
      r := txs;
      txs := [];
      takes := takes + 1;
    }
  }

  /** The block producer: a log of the batches queued to it, and the completion outcomes not yet
      read by the task. `mine` gives the outcomes the engine reports for a batch before the task
      next polls it (one block for an instant-mining producer, none for one whose block closes
      on a timer); outcomes that arrive on their own are added by `Complete`. */
  class BlockProducer {
    var queued: seq<seq<Tx>>
    var outcomes: seq<Outcome>
    const mine: seq<Tx> -> seq<Outcome>

    constructor (mine: seq<Tx> -> seq<Outcome>)
      ensures this.mine == mine && queued == [] && outcomes == []
    {
      this.mine := mine;
      queued := [];
      outcomes := [];
    }

    /** Accepts a batch for inclusion in a block. */
    method Queue(batch: seq<Tx>)
      modifies this
      ensures queued == old(queued) + [batch]
      ensures outcomes == old(outcomes) + mine(batch)
    {
      queued := queued + [batch];
      outcomes := outcomes + mine(batch);
    }

    /** A block-production attempt finished outside the task's turn. */
    method Complete(o: Outcome)
      modifies this
      ensures outcomes == old(outcomes) + [o] && queued == old(queued)
    {
      outcomes := outcomes + [o];
    }

    /** Non-blocking poll of the completion stream, oldest outcome first; the stream never ends. */
    method PollNext() returns (r: Poll<Option<Outcome>>)
      modifies this
      ensures queued == old(queued)
      ensures old(outcomes) != [] ==> r == Ready(Some(old(outcomes)[0])) && outcomes == old(outcomes)[1..]
      ensures old(outcomes) == [] ==> r == Pending && outcomes == []
    {
      if outcomes != [] {
        r := Ready(Some(outcomes[0]));
        outcomes := outcomes[1..];
      } else {
        r := Pending;
      }
    }
  }
}
