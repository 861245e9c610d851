/** TX and RX queue setup and release: three acquisitions (queue struct,
    descriptor ring, per-queue MR B-tree), every one of them given back on
    a failure, and all three given back by release. The outcome of each
    acquisition is a parameter. */
module Queues {
  import opened Common
  import opened Port

  /** A set-up TX queue: its ring and its B-tree are allocated. */
  predicate TxQueueComplete(q: TxQueue)
    reads q
  {
    q.descRing != null && q.mrBtree != null
  }

  /** A set-up RX queue: its ring and its B-tree are allocated. */
  predicate RxQueueComplete(q: RxQueue)
    reads q
  {
    q.descRing != null && q.mrBtree != null
  }

  /** What a successful TX queue setup leaves in the queue: zeroed ring
      cursors, a ring of nb_desc entries, num_desc = nb_desc, its socket and port. */
  predicate TxQueueInitialised(q: TxQueue, nbDesc: nat, socket: nat, priv: ManaPriv)
    reads q
  {
    TxQueueComplete(q) &&
    q.descRingHead == 0 && q.descRingTail == 0 && q.numDesc == nbDesc &&
    q.descRing.Length == nbDesc && q.socket == socket && q.priv == priv
  }

  /** The same for an RX queue, which also records its mempool. */
  predicate RxQueueInitialised(q: RxQueue, nbDesc: nat, socket: nat, priv: ManaPriv, mp: Mempool?)
    reads q
  {
    RxQueueComplete(q) &&
    q.descRingHead == 0 && q.descRingTail == 0 && q.numDesc == nbDesc &&
    q.descRing.Length == nbDesc && q.socket == socket && q.priv == priv && q.mp == mp
  }

  /** The fail label of TX queue setup: the ring (rte_free ignores NULL) and the queue struct are freed. */
  method FreeTxPartial(heap: Heap, txq: TxQueue)
    modifies heap`live
    ensures txq.descRing != null ==> heap.live == old(heap.live) - {txq.descRing} - {txq}
    ensures txq.descRing == null ==> heap.live == old(heap.live) - {txq}
  {
    if txq.descRing != null {
      heap.live := heap.live - {txq.descRing};
    }
    heap.live := heap.live - {txq};
  }

  /** The fail label of RX queue setup. */
  method FreeRxPartial(heap: Heap, rxq: RxQueue)
    modifies heap`live
    ensures rxq.descRing != null ==> heap.live == old(heap.live) - {rxq.descRing} - {rxq}
    ensures rxq.descRing == null ==> heap.live == old(heap.live) - {rxq}
  {
    if rxq.descRing != null {
      heap.live := heap.live - {rxq.descRing};
    }
    heap.live := heap.live - {rxq};
  }

  /** The success tail of TX queue setup: the B-tree storage is allocated,
      the cursors, port and descriptor count are recorded, and the queue is
      stored in its slot. */
  method InstallTxQueue(dev: EthDev, heap: Heap, txq: TxQueue, queueIdx: nat, nbDesc: nat)
    requires queueIdx < |dev.txQueues|
    modifies dev`txQueues, heap`live, txq`mrBtree, txq`descRingHead, txq`descRingTail, txq`priv, txq`numDesc
    ensures txq.mrBtree != null && fresh(txq.mrBtree) && heap.live == old(heap.live) + {txq.mrBtree}
    ensures txq.descRingHead == 0 && txq.descRingTail == 0 && txq.priv == dev.priv && txq.numDesc == nbDesc
    ensures dev.txQueues == old(dev.txQueues)[queueIdx := txq]
  {
    var btree := new MrBtree();
    txq.mrBtree := btree;
    heap.live := heap.live + {btree};

    txq.descRingHead := 0;
    txq.descRingTail := 0;
    txq.priv := dev.priv;
    txq.numDesc := nbDesc;
    dev.txQueues := dev.txQueues[queueIdx := txq];
  }

  /** The success tail of RX queue setup, which also records the mempool. */
  method InstallRxQueue(dev: EthDev, heap: Heap, rxq: RxQueue, queueIdx: nat, nbDesc: nat, mp: Mempool?)
    requires queueIdx < |dev.rxQueues|
    modifies dev`rxQueues, heap`live, rxq`mrBtree, rxq`priv, rxq`numDesc, rxq`mp
    ensures rxq.mrBtree != null && fresh(rxq.mrBtree) && heap.live == old(heap.live) + {rxq.mrBtree}
    ensures rxq.priv == dev.priv && rxq.numDesc == nbDesc && rxq.mp == mp
    ensures dev.rxQueues == old(dev.rxQueues)[queueIdx := rxq]
  {
    var btree := new MrBtree();
    rxq.mrBtree := btree;
    heap.live := heap.live + {btree};

    rxq.priv := dev.priv;
    rxq.numDesc := nbDesc;
    rxq.mp := mp;
    dev.rxQueues := dev.rxQueues[queueIdx := rxq];
  }

  /** mana_dev_tx_queue_setup. `queueAllocOk` and `ringAllocOk` are the
      outcomes of the two rte_*malloc_socket calls and `btreeRet` the value of
      mana_mr_btree_init. On success the new queue, with zeroed ring cursors
      and num_desc = nb_desc, is stored in its slot and the heap gains exactly
      its three blocks; on any failure the heap and the queue table are as
      they were. */
  method TxQueueSetup(dev: EthDev, heap: Heap, queueIdx: nat, nbDesc: nat, socket: nat,
                      queueAllocOk: bool, ringAllocOk: bool, btreeRet: int)
    returns (ret: int)
    requires queueIdx < |dev.txQueues|
    modifies dev`txQueues, heap`live
    ensures !queueAllocOk || !ringAllocOk ==> ret == -ENOMEM
    ensures queueAllocOk && ringAllocOk ==> ret == btreeRet
    ensures |dev.txQueues| == |old(dev.txQueues)|
    ensures ret != 0 ==> heap.live == old(heap.live) && dev.txQueues == old(dev.txQueues)
    ensures ret == 0 ==>
      var q := dev.txQueues[queueIdx];
      q != null && fresh(q) && TxQueueComplete(q) && fresh(q.descRing) && fresh(q.mrBtree) &&
      dev.txQueues == old(dev.txQueues)[queueIdx := q] &&
      TxQueueInitialised(q, nbDesc, socket, dev.priv) &&
      heap.live == old(heap.live) + {q, q.descRing, q.mrBtree}
  {
    if !queueAllocOk {
      return -ENOMEM;
    }
    var txq := new TxQueue.Zeroed();
    heap.live := heap.live + {txq};

    txq.socket := socket;

    if !ringAllocOk {
      ret := -ENOMEM;
    } else {
      var ring := new TxDesc[nbDesc](_ => TxDesc(0, 0, false));
      txq.descRing := ring;
      heap.live := heap.live + {ring};

      ret := btreeRet;
      if ret == 0 {
        InstallTxQueue(dev, heap, txq, queueIdx, nbDesc);
        return 0;
      }
    }
    // fail: rte_free(txq->desc_ring); rte_free(txq)
    FreeTxPartial(heap, txq);
  }

  /** mana_dev_tx_queue_release: the queue's B-tree, ring and struct are freed.
      The slot itself is left to the ethdev layer. */
  method TxQueueRelease(dev: EthDev, heap: Heap, qid: nat)
    requires qid < |dev.txQueues| && dev.txQueues[qid] != null
    requires TxQueueComplete(dev.txQueues[qid])
    modifies heap`live
    ensures var q := dev.txQueues[qid];
      heap.live == old(heap.live) - {q, q.descRing, q.mrBtree}
  {
    var txq := dev.txQueues[qid];
    heap.live := heap.live - {txq.mrBtree};
    heap.live := heap.live - {txq.descRing};
    heap.live := heap.live - {txq};
  }

  /** mana_dev_rx_queue_setup, with the same three acquisitions; its ring is
      zero-filled, its cursors are zeroed before the B-tree is set up, and the
      mempool is recorded on success. */
  method RxQueueSetup(dev: EthDev, heap: Heap, queueIdx: nat, nbDesc: nat, socket: nat,
                      mp: Mempool?, queueAllocOk: bool, ringAllocOk: bool, btreeRet: int)
    returns (ret: int)
    requires queueIdx < |dev.rxQueues|
    modifies dev`rxQueues, heap`live
    ensures !queueAllocOk || !ringAllocOk ==> ret == -ENOMEM
    ensures queueAllocOk && ringAllocOk ==> ret == btreeRet
    ensures |dev.rxQueues| == |old(dev.rxQueues)|
    ensures ret != 0 ==> heap.live == old(heap.live) && dev.rxQueues == old(dev.rxQueues)
    ensures ret == 0 ==>
      var q := dev.rxQueues[queueIdx];
      q != null && fresh(q) && RxQueueComplete(q) && fresh(q.descRing) && fresh(q.mrBtree) &&
      dev.rxQueues == old(dev.rxQueues)[queueIdx := q] &&
      RxQueueInitialised(q, nbDesc, socket, dev.priv, mp) &&
      heap.live == old(heap.live) + {q, q.descRing, q.mrBtree} &&
      forall i :: 0 <= i < q.descRing.Length ==> q.descRing[i] == RxDesc(0, 0)
  {
    if !queueAllocOk {
      return -ENOMEM;
    }
    var rxq := new RxQueue.Zeroed();
    heap.live := heap.live + {rxq};

    rxq.socket := socket;

    if !ringAllocOk {
      ret := -ENOMEM;
    } else {
      var ring := new RxDesc[nbDesc](_ => RxDesc(0, 0));
      rxq.descRing := ring;
      heap.live := heap.live + {ring};

      rxq.descRingHead := 0;
      rxq.descRingTail := 0;

      ret := btreeRet;
      if ret == 0 {
        InstallRxQueue(dev, heap, rxq, queueIdx, nbDesc, mp);
        return 0;
      }
    }
    // fail: rte_free(rxq->desc_ring); rte_free(rxq)
    FreeRxPartial(heap, rxq);
  }

  /** mana_dev_rx_queue_release: the queue's B-tree, ring and struct are freed. */
  method RxQueueRelease(dev: EthDev, heap: Heap, qid: nat)
    requires qid < |dev.rxQueues| && dev.rxQueues[qid] != null
    requires RxQueueComplete(dev.rxQueues[qid])
    modifies heap`live
    ensures var q := dev.rxQueues[qid];
      heap.live == old(heap.live) - {q, q.descRing, q.mrBtree}
  {
    var rxq := dev.rxQueues[qid];
    heap.live := heap.live - {rxq.mrBtree};
    heap.live := heap.live - {rxq.descRing};
    heap.live := heap.live - {rxq};
  }

  /** No leak across a queue's life: a TX queue set up and then released
      leaves the driver owning exactly what it owned before, whether or not
      the setup succeeded. */
  method TxQueueSetupThenRelease(dev: EthDev, heap: Heap, queueIdx: nat, nbDesc: nat, socket: nat,
                                 queueAllocOk: bool, ringAllocOk: bool, btreeRet: int)
    returns (ret: int)
    requires queueIdx < |dev.txQueues|
    modifies dev`txQueues, heap`live
    ensures heap.live == old(heap.live)
    ensures ret != 0 ==> dev.txQueues == old(dev.txQueues)
  {
    ret := TxQueueSetup(dev, heap, queueIdx, nbDesc, socket, queueAllocOk, ringAllocOk, btreeRet);
    if ret == 0 {
      TxQueueRelease(dev, heap, queueIdx);
    }
  }

  /** The same for an RX queue. */
  method RxQueueSetupThenRelease(dev: EthDev, heap: Heap, queueIdx: nat, nbDesc: nat, socket: nat,
                                 mp: Mempool?, queueAllocOk: bool, ringAllocOk: bool, btreeRet: int)
    returns (ret: int)
    requires queueIdx < |dev.rxQueues|
    modifies dev`rxQueues, heap`live
    ensures heap.live == old(heap.live)
    ensures ret != 0 ==> dev.rxQueues == old(dev.rxQueues)
  {
    ret := RxQueueSetup(dev, heap, queueIdx, nbDesc, socket, mp, queueAllocOk, ringAllocOk, btreeRet);
    if ret == 0 {
      RxQueueRelease(dev, heap, queueIdx);
    }
  }
}
