/** The objects the driver's entry points work on: the ethdev port and its
    shared data, the driver-private block (struct mana_priv), the TX and RX
    queue structs, the interrupt handle and the verbs context. Allocation is
    tracked by a `Heap` whose `live` set holds every block the driver owns. */
module Port {
  import opened Common
  import opened FastPath
  import opened Rss
  import opened AsyncEvents

  /** The driver's allocations (rte_malloc/rte_zmalloc, rte_intr_instance_alloc,
      B-tree storage): a block is owned while it is in `live`, freed once removed. */
  class Heap {
    var live: set<object>

    constructor()
      ensures live == {}
    {
      live := {};
    }
  }

  /** A memory-registration B-tree's storage (struct mana_mr_btree), as an
      opaque allocation: its lookup and eviction logic are not modelled. */
  class MrBtree {
    constructor()
    {
    }
  }

  /** One entry of a TX descriptor ring (struct mana_txq_desc). */
  datatype TxDesc = TxDesc(pkt: nat, wqeSizeInBu: nat, suppressTxCqe: bool)

  /** One entry of an RX descriptor ring (struct mana_rxq_desc). */
  datatype RxDesc = RxDesc(pkt: nat, wqeSizeInBu: nat)

  /** A packet-buffer pool handed to RX queue setup (struct rte_mempool). */
  class Mempool {
    constructor()
    {
    }
  }

  /** struct mana_txq, reduced to the fields queue setup writes. */
  class TxQueue {
    var priv: ManaPriv?
    var socket: nat
    var descRing: array?<TxDesc>
    var mrBtree: MrBtree?
    var descRingHead: nat
    var descRingTail: nat
    var numDesc: nat

    /** rte_zmalloc_socket: every field zero. */
    constructor Zeroed()
      ensures priv == null && socket == 0 && descRing == null && mrBtree == null
      ensures descRingHead == 0 && descRingTail == 0 && numDesc == 0
    {
      priv := null;
      socket := 0;
      descRing := null;
      mrBtree := null;
      descRingHead := 0;
      descRingTail := 0;
      numDesc := 0;
    }
  }

  /** struct mana_rxq, reduced to the fields queue setup writes. */
  class RxQueue {
    var priv: ManaPriv?
    var socket: nat
    var descRing: array?<RxDesc>
    var mrBtree: MrBtree?
    var descRingHead: nat
    var descRingTail: nat
    var numDesc: nat
    var mp: Mempool?

    /** rte_zmalloc_socket: every field zero. */
    constructor Zeroed()
      ensures priv == null && socket == 0 && descRing == null && mrBtree == null
      ensures descRingHead == 0 && descRingTail == 0 && numDesc == 0 && mp == null
    {
      priv := null;
      socket := 0;
      descRing := null;
      mrBtree := null;
      descRingHead := 0;
      descRingTail := 0;
      numDesc := 0;
      mp := null;
    }
  }

  /** RTE_INTR_HANDLE_* as far as the driver sets it. */
  datatype IntrKind = UnknownKind | Ext

  /** struct rte_intr_handle: the file descriptor it watches, its type, and
      whether a callback is registered on it. */
  class IntrHandle {
    var fd: int
    var kind: IntrKind
    var callbackRegistered: bool

    /** rte_intr_instance_alloc: a fresh handle with no descriptor and no callback. */
    constructor Fresh()
      ensures fd == -1 && kind == UnknownKind && !callbackRegistered
    {
      fd := -1;
      kind := UnknownKind;
      callbackRegistered := false;
    }
  }

  /** O_NONBLOCK as on Linux. */
  const O_NONBLOCK: bv32 := 0x800

  /** struct ibv_context, as far as the driver reads it: the asynchronous event
      descriptor, its file-status flags, and the events queued on it. */
  class VerbsContext {
    const asyncFd: int
    var asyncFdFlags: bv32
    var pendingEvents: seq<AsyncEvent>

    constructor(fd: int, flags: bv32, pending: seq<AsyncEvent>)
      ensures asyncFd == fd && asyncFdFlags == flags && pendingEvents == pending
    {
      asyncFd := fd;
      asyncFdFlags := flags;
      pendingEvents := pending;
    }

    /** ibv_get_async_event on a non-blocking descriptor, with `ok` the
        outcome of the read: the oldest queued event, or a failed read (None)
        when none is queued or the read fails; a failed read consumes nothing. */
    method GetAsyncEvent(ok: bool) returns (r: Option<AsyncEvent>)
      modifies this`pendingEvents
      ensures r.None? <==> !ok || old(pendingEvents) == []
      ensures r.None? ==> pendingEvents == old(pendingEvents)
      ensures r.Some? ==>
        r == Some(old(pendingEvents)[0]) && pendingEvents == old(pendingEvents)[1..]
    {
      if !ok || pendingEvents == [] {
        r := None;
      } else {
        r := Some(pendingEvents[0]);
        pendingEvents := pendingEvents[1..];
      }
    }
  }

  /** struct mana_priv, reduced to what the modelled operations read and write.
      `mrBtreeInit`, `txRunning` and `rxRunning` stand for the device MR
      B-tree having been initialised and the TX and RX queues being started. */
  class ManaPriv {
    var numQueues: bv16
    var bufAllocatorsSet: bool
    var mrBtreeInit: bool
    var txRunning: bool
    var rxRunning: bool
    var rssConf: EthRssConf
    var intrHandle: IntrHandle?
    const ibCtx: VerbsContext

    /** The zeroed private block of a freshly probed port. */
    constructor(ctx: VerbsContext)
      ensures ibCtx == ctx && numQueues == 0 && !bufAllocatorsSet
      ensures !mrBtreeInit && !txRunning && !rxRunning
      ensures rssConf == InitialRssConf && intrHandle == null
    {
      ibCtx := ctx;
      numQueues := 0;
      bufAllocatorsSet := false;
      mrBtreeInit := false;
      txRunning := false;
      rxRunning := false;
      rssConf := InitialRssConf;
      intrHandle := null;
    }
  }

  /** struct rte_eth_dev together with its rte_eth_dev_data, reduced to what
      the modelled operations read and write. `trace` records the steps taken
      by start and stop, `intrLog` the interrupt handler's actions. */
  class EthDev {
    const priv: ManaPriv
    var txBurst: Burst
    var rxBurst: Burst
    var nbRxQueues: bv16
    var nbTxQueues: bv16
    var mqRssFlag: bool        // dev_conf.rxmode.mq_mode & RTE_ETH_MQ_RX_RSS_FLAG
    var rssHashOffload: bool   // dev_conf.rxmode.offloads & RTE_ETH_RX_OFFLOAD_RSS_HASH
    var devStarted: bool
    var rmvIntrEnabled: bool   // dev_conf.intr_conf.rmv
    var txQueues: seq<TxQueue?>
    var rxQueues: seq<RxQueue?>
    // History kept for the specification only: the start/stop steps taken
    // and the interrupt handler's visible actions.
    ghost var trace: seq<Step>
    ghost var intrLog: seq<IntrAction>

    /** A probed port: entry points removed, no queues configured yet. */
    constructor(p: ManaPriv)
      ensures priv == p && txBurst == Removed && rxBurst == Removed
      ensures nbRxQueues == 0 && nbTxQueues == 0 && !mqRssFlag && !rssHashOffload
      ensures !devStarted && !rmvIntrEnabled && txQueues == [] && rxQueues == []
      ensures trace == [] && intrLog == []
    {
      priv := p;
      txBurst := Removed;
      rxBurst := Removed;
      nbRxQueues := 0;
      nbTxQueues := 0;
      mqRssFlag := false;
      rssHashOffload := false;
      devStarted := false;
      rmvIntrEnabled := false;
      txQueues := [];
      rxQueues := [];
      trace := [];
      intrLog := [];
    }

    /** The abstract port state start and stop are specified over. */
    function State(): PortState
      reads this, priv
    {
      PortState(priv.mrBtreeInit, priv.txRunning, priv.rxRunning, txBurst, rxBurst)
    }
  }
}
