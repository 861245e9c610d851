/** The removal interrupt: mana_intr_install with its rollback,
    mana_intr_uninstall, and the drain loop of mana_intr_handler. */
module Interrupts {
  import opened Common
  import opened AsyncEvents
  import opened Port

  /** mana_intr_install. `allocOk` is the outcome of rte_intr_instance_alloc,
      `setflOk` that of fcntl(F_SETFL) (which returns -1 on failure),
      `registerRet` the value of rte_intr_callback_register and `restoreOk`
      the outcome of the fcntl that restores the flags after a failed
      registration, whose result the driver ignores. On success the new
      handle watches the context's async fd, now non-blocking; every failure
      leaves intr_handle NULL and frees the handle, and the fd's flags are as
      they were unless the restore itself failed. */
  method IntrInstall(priv: ManaPriv, heap: Heap, allocOk: bool, setflOk: bool, registerRet: int,
                     restoreOk: bool)
    returns (ret: int)
    modifies priv`intrHandle, priv.ibCtx`asyncFdFlags, heap`live
    ensures !allocOk ==> ret == -ENOMEM
    ensures allocOk && !setflOk ==> ret == -1
    ensures allocOk && setflOk ==> ret == registerRet
    ensures ret != 0 ==> priv.intrHandle == null && heap.live == old(heap.live)
    ensures !allocOk || !setflOk ==> priv.ibCtx.asyncFdFlags == old(priv.ibCtx.asyncFdFlags)
    ensures allocOk && setflOk && registerRet != 0 ==>
      priv.ibCtx.asyncFdFlags ==
        if restoreOk then old(priv.ibCtx.asyncFdFlags) else old(priv.ibCtx.asyncFdFlags) | O_NONBLOCK
    ensures ret == 0 ==>
      var h := priv.intrHandle;
      h != null && fresh(h) && heap.live == old(heap.live) + {h} &&
      h.fd == priv.ibCtx.asyncFd && h.kind == Ext && h.callbackRegistered &&
      priv.ibCtx.asyncFdFlags == old(priv.ibCtx.asyncFdFlags) | O_NONBLOCK
  {
    var ctx := priv.ibCtx;
    if !allocOk {
      priv.intrHandle := null;
      return -ENOMEM;
    }
    var h := new IntrHandle.Fresh();
    priv.intrHandle := h;
    heap.live := heap.live + {h};

    h.fd := -1;

    var flags := ctx.asyncFdFlags;          // fcntl(F_GETFL)
    if !setflOk {
      ret := -1;
    } else {
      ctx.asyncFdFlags := flags | O_NONBLOCK; // fcntl(F_SETFL, flags | O_NONBLOCK)
      h.fd := ctx.asyncFd;
      h.kind := Ext;

      ret := registerRet;
      if ret == 0 {
        h.callbackRegistered := true;
        return 0;
      }
      h.fd := -1;
      // restore_fd:
      if restoreOk {
        ctx.asyncFdFlags := flags;
      }
    }
    // free_intr:
    heap.live := heap.live - {h};
    priv.intrHandle := null;
  }

  /** mana_intr_uninstall, with `unregisterRet` the value of
      rte_intr_callback_unregister (the number of callbacks removed, or a
      negative error). The handle is freed only when that count is positive;
      intr_handle itself is left pointing at it. */
  method IntrUninstall(priv: ManaPriv, heap: Heap, unregisterRet: int) returns (ret: int)
    modifies heap`live
    ensures unregisterRet <= 0 ==> ret == unregisterRet && heap.live == old(heap.live)
    ensures unregisterRet > 0 ==> ret == 0
    ensures unregisterRet > 0 && priv.intrHandle != null ==> heap.live == old(heap.live) - {priv.intrHandle}
    ensures priv.intrHandle == null ==> heap.live == old(heap.live)
  {
    ret := unregisterRet;
    if ret <= 0 {
      return ret;
    }
    if priv.intrHandle != null {
      heap.live := heap.live - {priv.intrHandle};
    }
    return 0;
  }

  /** Install followed by uninstall owns what it owned before, whenever the
      unregister removes the callback that a successful install registered. */
  method IntrInstallThenUninstall(priv: ManaPriv, heap: Heap, allocOk: bool, setflOk: bool,
                                  registerRet: int, restoreOk: bool)
    returns (ret: int)
    modifies priv`intrHandle, priv.ibCtx`asyncFdFlags, heap`live
    ensures heap.live == old(heap.live)
  {
    ret := IntrInstall(priv, heap, allocOk, setflOk, registerRet, restoreOk);
    if ret == 0 {
      ret := IntrUninstall(priv, heap, 1);
    }
  }

  /** Read number `k` of a drain succeeds when the outcome given for it says
      so; reads beyond the given outcomes fail. */
  predicate ReadSucceeds(readOk: seq<bool>, k: nat)
  {
    k < |readOk| && readOk[k]
  }

  /** mana_intr_handler: reads events until a read fails, acknowledging each
      one, and raising the removal callback first for a device-fatal event
      when the port has removal interrupts enabled. `dev` is the port at
      rte_eth_devices[priv->port_id], and `readOk` the outcomes of the
      successive ibv_get_async_event calls. The loop ends at the first read
      that fails, because of its outcome or because nothing is queued; `n`
      is the number of events read, and the actions taken are DrainLog of
      exactly those. */
  method IntrHandler(priv: ManaPriv, dev: EthDev, readOk: seq<bool>) returns (ghost n: nat)
    requires dev.priv == priv
    modifies priv.ibCtx`pendingEvents, dev`intrLog
    ensures n <= |old(priv.ibCtx.pendingEvents)|
    ensures forall k :: 0 <= k < n ==> ReadSucceeds(readOk, k)
    ensures n == |old(priv.ibCtx.pendingEvents)| || !ReadSucceeds(readOk, n)
    ensures priv.ibCtx.pendingEvents == old(priv.ibCtx.pendingEvents)[n..]
    ensures dev.intrLog == old(dev.intrLog) + DrainLog(old(priv.ibCtx.pendingEvents)[..n], dev.rmvIntrEnabled)
  {
    var ctx := priv.ibCtx;
    ghost var events := ctx.pendingEvents;
    var nRead := 0;
    while true
      invariant 0 <= nRead <= |events|
      invariant ctx.pendingEvents == events[nRead..]
      invariant forall k :: 0 <= k < nRead ==> ReadSucceeds(readOk, k)
      invariant dev.intrLog == old(dev.intrLog) + DrainLog(events[..nRead], dev.rmvIntrEnabled)
      decreases |ctx.pendingEvents|
    {
      var event := ctx.GetAsyncEvent(nRead < |readOk| && readOk[nRead]);
      if event.None? {
        break;
      }
      var e := event.value;
      if e == DeviceFatal {
        if dev.rmvIntrEnabled {
          dev.intrLog := dev.intrLog + [RaiseRemoval];
        }
      }
      dev.intrLog := dev.intrLog + [Ack(e)];
      assert events[..nRead + 1][..nRead] == events[..nRead];
      nRead := nRead + 1;
    }
    n := nRead;
  }
}
