/** The port-level entry points that change the port in place:
    mana_dev_configure, mana_dev_start, mana_dev_stop and the RSS update. */
module Lifecycle {
  import opened Common
  import opened QueueLayout
  import opened FastPath
  import opened Rss
  import opened Port

  /** mana_dev_configure. Requesting RSS multi-queue mode turns the RSS hash
      offload on, even when the layout is then refused; a layout with unequal
      RX and TX counts, or a count that is not a power of two, is refused with
      -EINVAL before num_queues or the verbs buffer allocators are touched. */
  method DevConfigure(dev: EthDev) returns (ret: int)
    modifies dev`rssHashOffload, dev.priv`numQueues, dev.priv`bufAllocatorsSet
    ensures ret == CheckQueueLayout(dev.nbRxQueues, dev.nbTxQueues)
    ensures dev.rssHashOffload == (old(dev.rssHashOffload) || dev.mqRssFlag)
    ensures ret != 0 ==>
      dev.priv.numQueues == old(dev.priv.numQueues) &&
      dev.priv.bufAllocatorsSet == old(dev.priv.bufAllocatorsSet)
    ensures ret == 0 ==> dev.priv.numQueues == dev.nbRxQueues && dev.priv.bufAllocatorsSet
  {
    if dev.mqRssFlag {
      dev.rssHashOffload := true;
    }
    if dev.nbRxQueues != dev.nbTxQueues {
      return -EINVAL;
    }
    if !IsPowerOfTwoBits(dev.nbRxQueues) {
      return -EINVAL;
    }
    dev.priv.numQueues := dev.nbRxQueues;
    dev.priv.bufAllocatorsSet := true;
    return 0;
  }

  /** mana_dev_start, given the return values of the device MR B-tree init,
      the TX and RX queue starts and, on the RX-failure path, the TX stop.
      The steps it takes are exactly StartSteps, so the state it leaves is
      their run, and the entry points it publishes never see a partly
      started port. */
  method DevStart(dev: EthDev, btreeRet: int, txRet: int, rxRet: int, txStopRet: int)
    returns (ret: int)
    modifies dev`txBurst, dev`rxBurst, dev`trace,
             dev.priv`mrBtreeInit, dev.priv`txRunning, dev.priv`rxRunning
    ensures dev.trace == old(dev.trace) + StartSteps(btreeRet, txRet, rxRet, txStopRet)
    ensures dev.State() == Run(old(dev.State()), StartSteps(btreeRet, txRet, rxRet, txStopRet))
    ensures ret == StartResult(btreeRet, txRet, rxRet)
    ensures old(Quiesced(dev.State())) ==>
      SafeThroughout(old(dev.State()), StartSteps(btreeRet, txRet, rxRet, txStopRet))
  {
    ghost var s := dev.State();
    StartRunCases(s, btreeRet, txRet, rxRet, txStopRet);
    if btreeRet != 0 {
      dev.trace := dev.trace + [InitMrBtree(false)];
      return btreeRet;
    }
    dev.priv.mrBtreeInit := true;
    dev.trace := dev.trace + [InitMrBtree(true)];
    ret := StartQueues(dev, txRet, rxRet, txStopRet);
  }

  /** The part of mana_dev_start after the MR B-tree is initialised: the
      queue starts, the rollback through failed_rx and failed_tx, or the
      publication of the burst entry points. */
  method StartQueues(dev: EthDev, txRet: int, rxRet: int, txStopRet: int) returns (ret: int)
    modifies dev`txBurst, dev`rxBurst, dev`trace,
             dev.priv`mrBtreeInit, dev.priv`txRunning, dev.priv`rxRunning
    ensures dev.trace == old(dev.trace) + StartSteps(0, txRet, rxRet, txStopRet)[1..]
    ensures ret == StartResult(0, txRet, rxRet)
    ensures ret != 0 ==>
      dev.txBurst == old(dev.txBurst) && dev.rxBurst == old(dev.rxBurst) &&
      !dev.priv.mrBtreeInit && dev.priv.txRunning == (txRet == 0 && txStopRet != 0) &&
      dev.priv.rxRunning == (txRet != 0 && old(dev.priv.rxRunning))
    ensures ret == 0 ==>
      dev.txBurst == Active && dev.rxBurst == Active &&
      dev.priv.mrBtreeInit == old(dev.priv.mrBtreeInit) && dev.priv.txRunning && dev.priv.rxRunning
  {
    var priv := dev.priv;
    if txRet != 0 {
      priv.txRunning := false;
      dev.trace := dev.trace + [StartTxQueues(false), FreeMrBtree];
      priv.mrBtreeInit := false;
      return txRet;
    }
    priv.txRunning := true;
    dev.trace := dev.trace + [StartTxQueues(true)];
    if rxRet != 0 {
      priv.rxRunning := false;
      // failed_rx: mana_stop_tx_queues
      if txStopRet == 0 {
        priv.txRunning := false;
      }
      // failed_tx: mana_mr_btree_free
      priv.mrBtreeInit := false;
      dev.trace := dev.trace + [StartRxQueues(false), StopTxQueues(txStopRet == 0), FreeMrBtree];
      return rxRet;
    }
    priv.rxRunning := true;
    dev.trace := dev.trace + [StartRxQueues(true), WriteBarrier];
    dev.txBurst := Active;
    dev.rxBurst := Active;
    dev.trace := dev.trace + [SetTxBurst(Active), SetRxBurst(Active), RequestSecondaries(StartRxTx)];
    return 0;
  }

  /** mana_dev_stop, given the return values of the TX and RX queue stops. */
  method DevStop(dev: EthDev, txRet: int, rxRet: int) returns (ret: int)
    modifies dev`txBurst, dev`rxBurst, dev`trace, dev.priv`txRunning, dev.priv`rxRunning
    ensures dev.trace == old(dev.trace) + StopSteps(txRet, rxRet)
    ensures dev.State() == Run(old(dev.State()), StopSteps(txRet, rxRet))
    ensures ret == StopResult(txRet, rxRet)
    ensures Quiesced(dev.State())
    ensures old(Safe(dev.State())) ==> SafeThroughout(old(dev.State()), StopSteps(txRet, rxRet))
  {
    StopRunCases(dev.State(), txRet, rxRet);
    var priv := dev.priv;
    dev.txBurst := Removed;
    dev.rxBurst := Removed;
    dev.trace := dev.trace + [SetTxBurst(Removed), SetRxBurst(Removed), RequestSecondaries(StopRxTx), WriteBarrier];

    if txRet != 0 {
      dev.trace := dev.trace + [StopTxQueues(false)];
      return txRet;
    }
    priv.txRunning := false;
    dev.trace := dev.trace + [StopTxQueues(true)];

    if rxRet != 0 {
      dev.trace := dev.trace + [StopRxQueues(false)];
      return rxRet;
    }
    priv.rxRunning := false;
    dev.trace := dev.trace + [StopRxQueues(true)];
    return 0;
  }

  /** mana_rss_hash_update on the port's stored settings, with the key
      allocation's outcome as a parameter; it checks that allocation before
      writing any field of priv->rss_conf (see Rss.RssHashUpdateAsWritten for
      the order the source uses). */
  method RssHashUpdate(dev: EthDev, req: EthRssConf, allocOk: bool) returns (ret: int)
    requires BufferCovers(req)
    modifies dev.priv`rssConf
    ensures (ret, dev.priv.rssConf) == Rss.RssHashUpdate(dev.devStarted, old(dev.priv.rssConf), req, allocOk)
  {
    var priv := dev.priv;
    if dev.devStarted {
      return -ENODEV;
    }
    if !HashTypesSupported(req.hf) {
      return -EINVAL;
    }
    if req.key.Some? && req.keyLen != 0 {
      if req.keyLen != TOEPLITZ_HASH_KEY_SIZE_IN_BYTES {
        return -EINVAL;
      }
      if !allocOk {
        return -ENOMEM;
      }
      priv.rssConf := priv.rssConf.(keyLen := req.keyLen, key := Some(req.key.value[..req.keyLen]));
    }
    priv.rssConf := priv.rssConf.(hf := req.hf);
    return 0;
  }
}
