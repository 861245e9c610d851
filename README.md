# MANA poll-mode driver: bookkeeping core

This Dafny project models the control-path bookkeeping of the DPDK poll-mode
driver for the Microsoft Azure Network Adapter (`drivers/net/mana/mana.c`).
Each verbs, EAL, allocator or multi-process call the driver makes is a
parameter that carries that call's outcome. Each allocation is a block that
is either owned (in `Heap.live`) or freed.

The project has these modules:

- `QueueLayout`: the queue-count guard of `mana_dev_configure`. It checks that the RX and TX counts are equal and that the count is a power of two. `rte_is_power_of_2` is the test `n && !(n & (n - 1))`: n is non-zero and `n & (n - 1)` is 0, so 0 is not a power of two. A lemma proves the test equals "is 2^k".
- `Rss`: `mana_rss_hash_update` and `mana_rss_hash_conf_get` as functions on `struct rte_eth_rss_conf` values.
- `FastPath`: the steps `mana_dev_start` and `mana_dev_stop` take, and an interpreter for those steps over an abstract port state. The state holds the device MR B-tree, TX running, RX running, and the two burst pointers as `Active` or `Removed`. The module also defines `SafeThroughout`: after every step, a live burst pointer implies a fully started port.
- `AsyncEvents`: what the interrupt handler's drain loop acknowledges and raises, as a log of actions.
- `Port`: the objects the entry points change in place. These are the ethdev port, `struct mana_priv`, the TX/RX queue structs, the interrupt handle, and the verbs context with its queued async events.
- `Lifecycle`: configure, start, stop and the RSS update as methods on the port.
- `Queues`: TX/RX queue setup and release, with every exit path's allocations.
- `Interrupts`: `mana_intr_install` (with its rollback), `mana_intr_uninstall`, and the `while (true)` drain loop of `mana_intr_handler`.
- `MacArgs`: the bounded collection of `mac=` device arguments into the eight-entry `mana_conf.mac_array`.
- `SharedState`: the shared data block in its memzone, the process-local mirror, the init-once guards, and the port counters of probe and remove.
- `ProbeResources`: what the secondary-process path of `mana_probe_port` still holds when it returns.

`mana.h` is not part of this model. These constants are taken from the driver header:

- `TOEPLITZ_HASH_KEY_SIZE_IN_BYTES = 40`;
- `MANA_ETH_RSS_SUPPORT`, made of the IPv4, IPv6, non-fragmented TCP and non-fragmented UDP bits over IPv4 and IPv6: `RTE_ETH_RSS_*` bits 2, 4, 5, 8, 10 and 11 of `rss_hf`.

`MAX_NUM_ADDRESS = 8` comes from `mana.c` itself (drivers/net/mana/mana.c:576).

`rte_kvargs_process` is taken with DPDK's semantics. It runs the handler on each value of the key in order and stops with -1 at the first negative return.

## Model

| member | source | states |
|---|---|---|
| QueueLayout.PowerOfTwoBitsCorrect | drivers/net/mana/mana.c:89 | the `rte_is_power_of_2` bit test holds exactly when the 16-bit count is 2^k for some k < 16 (both directions) |
| QueueLayout.CheckQueueLayout | drivers/net/mana/mana.c:84-92 | the layout is accepted (0) exactly when nb_rx_queues == nb_tx_queues and the count is a power of two, and is otherwise refused with -EINVAL |
| Lifecycle.DevConfigure | drivers/net/mana/mana.c:76-104 | returns the layout check's verdict; RSS multi-queue mode turns on the RSS hash offload on every path; a refusal leaves num_queues and the verbs buffer allocators untouched; success sets num_queues = nb_rx_queues and installs the allocators |
| FastPath.StartRunCases | drivers/net/mana/mana.c:109-153 | closed form of each outcome of StartSteps (the steps mana_dev_start takes for the given call results): btree failure changes nothing; TX failure frees the btree with TX down; RX failure stops TX (if that stop succeeds) and frees the btree; success has everything up and both burst pointers Active; and from a stopped port the whole sequence is safe after every step |
| FastPath.StartRunPublished | drivers/net/mana/mana.c:129-144 | on the success path the btree init, both queue starts and the write barrier all come before either burst pointer is set Active, the run ends with everything up and both pointers Active, and the port is safe at every step |
| FastPath.StartSafe | drivers/net/mana/mana.c:109-153 | from a port with both burst pointers Removed, no step of start leaves a live burst pointer over a partly started port |
| FastPath.StartPublishesIffAllStarted | drivers/net/mana/mana.c:109-153 | both burst pointers end Active if and only if start returns 0; every failure leaves them Removed; a failed start from an idle port leaves it idle when the rollback stop succeeds; success leaves btree, TX and RX up |
| FastPath.StartAttempts | drivers/net/mana/mana.c:114-131 | TX start is attempted exactly when the btree init succeeded; RX start exactly when TX start also succeeded; the btree is freed exactly on a TX or RX failure; TX is stopped exactly on an RX failure |
| Lifecycle.DevStart | drivers/net/mana/mana.c:109-153 | the port's trace is extended by exactly StartSteps (the btree init, TX start, RX start, barrier and publication, or the rollback through failed_rx and failed_tx), its new state is their run, it returns StartResult, the first failing call's value (else 0), and from a stopped port the steps are safe throughout |
| Lifecycle.StartQueues | drivers/net/mana/mana.c:121-152 | after the btree init: the TX/RX start, rollback or publication steps in order, the return value, and the burst pointers, btree and running flags each path leaves |
| FastPath.StopRunCases | drivers/net/mana/mana.c:156-181 | closed form of a stop: both burst pointers Removed; TX down if its stop succeeded; RX stop attempted only after TX stopped, and RX down if it succeeded; safe throughout from any safe state |
| FastPath.StopSafe | drivers/net/mana/mana.c:156-181 | from a safe state, stop is safe after every step and ends with both burst pointers Removed |
| FastPath.StopOrdering | drivers/net/mana/mana.c:159-174 | both burst pointers are set to Removed and the write barrier issued before any queue stop; TX is stopped before RX; RX stop is attempted if and only if TX stop succeeded |
| Lifecycle.DevStop | drivers/net/mana/mana.c:156-181 | the trace is extended by exactly StopSteps (pointers Removed, secondaries told, barrier, TX stop, and the RX stop only after a successful TX stop), the new state is their run, the result is StopResult, the first failing stop's value (else 0), the port ends with both burst pointers Removed, and a safe port stays safe throughout |
| Rss.RssHashUpdateAsWritten | drivers/net/mana/mana.c:336-356 | the update as written: an allocation failure leaves the stored key length overwritten and the key pointer NULL |
| Rss.RssHashUpdateAsWrittenLosesKey | drivers/net/mana/mana.c:346-353 | a 40-byte key whose copy fails to allocate returns -ENOMEM and leaves a stored length of 40 over a NULL key, a configuration that is no longer readable |
| Rss.RssHashUpdate | drivers/net/mana/mana.c:323-360 | -ENODEV exactly when started; -EINVAL exactly for unsupported hash bits or a non-empty key of the wrong length; -ENOMEM exactly for a failed key allocation; every rejection leaves rss_conf unchanged; success stores rss_hf, replaces the key with a copy of the 40 supplied bytes only when a key is supplied, and keeps it otherwise; valid settings stay valid |
| Rss.RssHashUpdateDiffersOnlyOnNoMem | drivers/net/mana/mana.c:323-360 | the corrected update returns the same value as the code as written on every input, and leaves the same settings except on -ENOMEM |
| Lifecycle.RssHashUpdate | drivers/net/mana/mana.c:323-360 | the method's return value and priv->rss_conf are exactly those of Rss.RssHashUpdate on the old settings |
| Rss.RssHashConfGet | drivers/net/mana/mana.c:363-381 | -EINVAL exactly for a NULL conf; otherwise always reports the stored key_len and rss_hf; copies the stored key over the first key_len bytes of the caller's buffer only when the buffer is non-NULL and at least that long, leaving the rest of the buffer as it was, and otherwise leaves the buffer alone; the stored key need be readable only when it is copied, so the NULL-key length of 40 left by the as-written allocation failure can still be queried (RssConfGetAfterLostKey) |
| Rss.RssConfGetAfterLostKey | drivers/net/mana/mana.c:363-381 | after the lost-key update, a NULL conf still gets -EINVAL and a NULL caller key still gets key_len 40 and the stored hash types |
| Rss.RssUpdateThenGet | drivers/net/mana/mana.c:323-381 | after a successful update that installs a key, reading the settings into a buffer of at least 40 bytes returns that key, its length 40 and the hash types that were set |
| Queues.InstallTxQueue | drivers/net/mana/mana.c:411-427 | the TX success tail: a fresh B-tree block joins the heap, the ring cursors are zeroed, priv and num_desc are recorded, and the queue is stored in its slot |
| Queues.TxQueueSetup | drivers/net/mana/mana.c:384-433 | -ENOMEM for a failed queue or ring allocation, else the B-tree init's value; any failure leaves the heap and tx_queues exactly as they were (nothing leaks); success stores a fresh queue in slot queue_idx only, with zeroed cursors, num_desc = nb_desc, a ring of nb_desc entries, and the heap gaining exactly queue, ring and B-tree |
| Queues.FreeTxPartial | drivers/net/mana/mana.c:429-432 | the fail label of TX setup frees the ring when one was allocated, and the queue struct |
| Queues.TxQueueRelease | drivers/net/mana/mana.c:436-444 | the queue's B-tree, ring and struct are freed, and nothing else |
| Queues.TxQueueSetupThenRelease | drivers/net/mana/mana.c:384-444 | setup followed by release of a TX queue leaves the heap exactly as it was, whatever the setup's outcome |
| Queues.InstallRxQueue | drivers/net/mana/mana.c:481-493 | the RX success tail: a fresh B-tree block joins the heap, priv, num_desc and the mempool are recorded, and the queue is stored in its slot |
| Queues.RxQueueSetup | drivers/net/mana/mana.c:447-499 | the same as TX setup for rx_queues, with the mempool recorded on success and every entry of the zero-filled ring the zero descriptor |
| Queues.FreeRxPartial | drivers/net/mana/mana.c:495-498 | the fail label of RX setup frees the ring when one was allocated, and the queue struct |
| Queues.RxQueueRelease | drivers/net/mana/mana.c:502-510 | the queue's B-tree, ring and struct are freed, and nothing else |
| Queues.RxQueueSetupThenRelease | drivers/net/mana/mana.c:447-510 | setup followed by release of an RX queue leaves the heap exactly as it was |
| Port.VerbsContext.GetAsyncEvent | drivers/net/mana/mana.c:743-744 | a read fails exactly when its outcome says so or nothing is queued, and then consumes nothing; otherwise it returns the oldest queued event and removes it |
| AsyncEvents.HandleEventFacts | drivers/net/mana/mana.c:746-755 | one event read is acknowledged exactly once and raises at most one removal, only for DEVICE_FATAL with rmv enabled |
| AsyncEvents.DrainAcksEveryEvent | drivers/net/mana/mana.c:742-756 | DrainLog, the actions of the loop body (HandleEvent: a removal for DEVICE_FATAL with rmv enabled, then the ack) over the events read, acknowledges exactly the events read, once each, in order |
| AsyncEvents.DrainRaisesOnlyOnFatal | drivers/net/mana/mana.c:742-756 | removal is raised once per DEVICE_FATAL event when rmv is enabled, and never when it is not |
| AsyncEvents.RemovalThenAck | drivers/net/mana/mana.c:746-755 | every removal notification is immediately followed by the acknowledgement of a DEVICE_FATAL event |
| Interrupts.IntrHandler | drivers/net/mana/mana.c:735-757 | the loop ends at the first read that fails, whether because of its outcome or because nothing is queued; every earlier read succeeded; exactly the events read are consumed, and the actions performed are DrainLog of those events |
| Interrupts.IntrInstall | drivers/net/mana/mana.c:777-819 | -ENOMEM for a failed handle allocation, -1 for a failed F_SETFL, else the registration's value; every failure leaves intr_handle NULL and frees the handle; a failed allocation or F_SETFL leaves the fd flags as before, and a failed registration restores them when the restoring fcntl succeeds (else O_NONBLOCK stays); success leaves a fresh registered handle of type EXT on the async fd, with O_NONBLOCK added to the flags |
| Interrupts.IntrUninstall | drivers/net/mana/mana.c:760-774 | unregister's non-positive value is returned with nothing freed; a positive value frees the handle and returns 0 |
| Interrupts.IntrInstallThenUninstall | drivers/net/mana/mana.c:760-819 | installing and then uninstalling a registered handler leaves the heap as it was |
| MacArgs.CallbackEffect | drivers/net/mana/mana.c:583-604 | returns 1 exactly when the array is full, -1 exactly on a parse failure with room, 0 exactly on a parse with room; only a 0 changes anything, and then it writes slot `index` only and increments index by one; index never exceeds 8 |
| MacArgs.ArgParseCallback | drivers/net/mana/mana.c:583-604 | the method's return value, array contents and index are those of CallbackEffect |
| MacArgs.ProcessBounds | drivers/net/mana/mana.c:624-625 | Process, the rte_kvargs_process walk that runs the callback on each `mac` value and stops with -1 at the first negative return, returns 0 or -1, never lowers the index or moves it past 8, and writes only the slots between the old and the new index |
| MacArgs.ProcessAllParsed | drivers/net/mana/mana.c:624-625 | when every value the array has room for parses, the walk returns 0, the index advances by one per value up to 8, and the k-th value lands in slot index + k |
| MacArgs.ProcessStopsAtFirstFailure | drivers/net/mana/mana.c:624-625 | the first value that fails to parse with room left stops the walk with -1; the values before it are stored, the index counts exactly them, and later slots are untouched |
| MacArgs.ParseArgs | drivers/net/mana/mana.c:607-634 | an unparsable argument string or more than 8 `mac` values returns -EINVAL with the array and index untouched; otherwise the result, array and index are those of the kvargs walk |
| MacArgs.ParseArgsInBounds | drivers/net/mana/mana.c:607-634 | whatever the arguments, parse_args returns 0, -1 or -EINVAL and leaves the index within 0..8, never below its old value |
| SharedState.InitSharedData | drivers/net/mana/mana.c:863-903 | an already-set shared pointer means nothing is done and 0; a primary reserves a fresh zeroed block in the memzone table, and any other process attaches to the existing zone and zeroes its local mirror; when that fails nothing changes and -rte_errno is returned, which is 0 when rte_errno is 0; the pointer is set exactly when the reservation or lookup succeeds; consistency is preserved |
| SharedState.InitOnceAsWritten | drivers/net/mana/mana.c:909-955 | init_once as written aborts (the NULL mana_shared_data dereference of mana.c:917) exactly when the shared block could not be set up and rte_errno was 0; otherwise 0 exactly when init-once is done, and nothing is redone when it already was |
| SharedState.InitMpChannel | drivers/net/mana/mana.c:919-950 | the role switch of init_once: 0 exactly when the role's flag ends set; no MP init call when it already was, exactly one otherwise, and the flag set only when that call returns 0; -EPROTO and no call for any other role; consistency is preserved |
| SharedState.InitOnce | drivers/net/mana/mana.c:909-955 | init_once with a missing shared block reported (-rte_errno, or -ENOENT when that is 0): returns 0 exactly when init-once is done for the role; at most one MP init call, none when already done, one when not yet done; the role's flag is set only when that call succeeds; -EPROTO for a role other than primary or secondary; consistency is preserved |
| SharedState.InitWithoutZoneAsWritten | drivers/net/mana/mana.c:888-917 | a secondary whose lookup finds no shared memzone, with rte_errno 0, reaches the NULL mana_shared_data in init_once as written |
| SharedState.InitWithoutZone | drivers/net/mana/mana.c:888-917 | with the missing block reported, the same start fails with -ENOENT, makes no MP init call and stays consistent |
| SharedState.ProbePort | drivers/net/mana/mana.c:1023-1026 | on its success path only, a primary raises primary_cnt once (mana.c:1110-1112) and a secondary raises both secondary_cnt copies once; a failure changes no counter; init_done is untouched; consistency is preserved |
| SharedState.PciRemoveAsWritten | drivers/net/mana/mana.c:1262-1304 | the remove as written: RTE_VERIFY aborts exactly on a zero primary count, or for a secondary exactly on a zero shared or local count; otherwise it returns the value of rte_eth_dev_pci_generic_remove, the primary count, or the shared and local secondary counts, go down by one, and a secondary's MP channel stays as it was while its local count stays positive; the memzone and MP channel stay while the primary count stays positive; the last primary detach uninitialises MP and frees the memzone but keeps mana_shared_data and init_done; the last secondary detach keeps local init_done; after removing the last port the bookkeeping is no longer consistent |
| SharedState.ReprobeAfterLastRemoveAsWritten | drivers/net/mana/mana.c:909-944 | with the code as written, removing a process's only port and probing again succeeds and reports init-once done with no MP init call, so a secondary's MP channel stays down; for a primary the same outcome rests on reading the freed memzone, whose contents the model keeps |
| SharedState.PciRemove | drivers/net/mana/mana.c:1262-1304 | each count is checked positive before its decrement (RTE_VERIFY aborts exactly otherwise); MP uninit and the memzone free happen exactly when the primary count reaches 0 (the memzone, shared pointers and MP state are kept while it stays positive), MP uninit for a secondary exactly when its local count reaches 0, and the globals are cleared then; removing a probed port never aborts and keeps the bookkeeping consistent |
| SharedState.ReprobeAfterLastRemove | drivers/net/mana/mana.c:909-944 | with the corrected remove, the same remove and re-probe makes one MP init call, brings the channel back up over a live memzone, and keeps the bookkeeping consistent |
| ProbeResources.SecondaryProbeAsWritten | drivers/net/mana/mana.c:977-1031 | the secondary probe as written returns 0 exactly when every step succeeds; the failed label (mana.c:1126-1145) frees priv and releases the port, a doorbell map failure still holds the verbs fd, and success still holds the priv block |
| ProbeResources.SecondaryProbeAsWrittenLeaks | drivers/net/mana/mana.c:1011-1018 | a map failure returns -ENOMEM with the fd still open, and a successful probe keeps the unreachable priv block |
| ProbeResources.SecondaryProbe | drivers/net/mana/mana.c:977-1031 | the corrected secondary probe returns 0 exactly when every step succeeds, with -ENOMEM / the proc-priv error / -ENODEV / -ENOMEM for the failing step; every failure holds nothing, and success holds exactly the port's ethdev slot and doorbell page |
| ProbeResources.SecondaryProbeDiffersOnlyInLeaks | drivers/net/mana/mana.c:977-1031 | the corrected probe returns the same value as the code as written on every input, and holds the same resources minus the leaked fd and priv block |

## Left out

- The memory-registration B-tree (`mana_mr_btree_init`/`free`, `mana_remove_all_mr`) is an opaque owned block whose init returns a parameter. Its lookup and eviction logic are defined outside `mana.c`.
- `mana_start_tx_queues`, `mana_start_rx_queues`, `mana_stop_tx_queues` and `mana_stop_rx_queues` are defined outside `mana.c`. A failed start is taken to leave that direction stopped, and a failed stop to leave it as it was.
- `get_port_mac` and `mana_ibv_device_to_pci_addr` are left out: they are filesystem I/O.
- `mana_pci_probe_mac` is left out, together with its `ibv_query_device_ex` device query: these are external verbs calls. The primary path of `mana_probe_port` is left out too: the device open, the ethdev and MAC allocations, the PD, the parent domain, and the copying of the device limits into `priv`. These are external verbs and EAL calls. The counter update is modelled as `SharedState.ProbePort` over the outcome of the rest of the probe.
- `mana_dev_close`, `mana_dev_uninit`, `mana_dev_info_get`, the queue-info callbacks, `mana_dev_link_update`, `mana_supported_ptypes`, the burst stubs and the op tables are left out. They are teardown glue or constant descriptors.
- Logging (`DRV_LOG`, `MANA_MKSTR`) is left out.
- Spinlocks and `rte_wmb` are not modelled as concurrency primitives. Each critical section is one atomic step, and the barrier is kept only as a step in the start/stop order.
- Concurrent activity of other processes sharing the memzone is left out.
- Setting `rte_errno` is left out; its value after a failed memzone reservation or lookup is a parameter, 0 included.
- A failing `fcntl(F_GETFL)` in `mana_intr_install` is left out: its -1 is passed on to F_SETFL unchecked.
- Interrupts.IntrHandler: the outcomes of the successive `ibv_get_async_event` calls are a finite sequence, and every read past its end fails.
- SharedState.ReprobeAfterLastRemoveAsWritten: a freed memzone keeps its last contents in the model. For a primary, mana.c reads `init_done` from freed memory there, and what it reads is undefined.
- Interrupts.IntrInstallThenUninstall: takes the unregister's result as 1, the callback count a successful install registered.
- Queues.TxQueueSetup: does not state the TX descriptor ring's contents. `rte_malloc_socket` leaves them uninitialised, and the model fills the ring with zero descriptors.
- `uint16_t` queue counts are `bv16`. The 32-bit shared counters and `conf.index` are unbounded naturals, because a count of 2^32 ports cannot be reached.
- MacArgs.ArgParseCallback: a failed `rte_ether_unformat_addr` is taken to write nothing into the slot.
- `rte_kvargs_free` is not modelled.
- Rss.RssHashUpdate: the key buffer is a value, so ownership of the old key (which a new key overwrites without freeing) is not modelled.
- `eth_dev->process_private` is not tracked as a resource of `ProbeResources`. Its release is left to `rte_eth_dev_release_port`.
- Queue release leaves the `tx_queues`/`rx_queues` slot to the ethdev layer, as `mana.c` does.
- SharedState.PciRemove: counts one decrement per port. The source decrements once per PCI device even when the device has several probed ports; a multi-port device is not modelled.
- SharedState.InitSharedData: the "Cannot attach" path of a secondary is keyed only on whether the named memzone is reserved.

## Findings

| source | as written | input that shows it | evidently intended | confidence | as-written member | corrected member |
|---|---|---|---|---|---|---|
| drivers/net/mana/mana.c:346-353 | `rss_key_len` is stored and `rss_key` overwritten with the allocation result before the allocation is checked | a stopped port with no key, and a 40-byte key whose `rte_zmalloc` fails: -ENOMEM, then stored length 40 over a NULL key, so the next conf_get with a 40-byte buffer copies from NULL | check the allocation before writing priv->rss_conf, so -ENOMEM leaves the settings as they were | not executed; high | Rss.RssHashUpdateAsWrittenLosesKey | Rss.RssHashUpdate |
| drivers/net/mana/mana.c:1262-1304 | the last primary detach frees the memzone but leaves `mana_shared_data` set (and its `init_done` at 1); the last secondary detach leaves `mana_local_data.init_done` at 1 | one port probed, removed, then probed again in the same process: a secondary's `mana_init_once` returns 0 without calling `mana_mp_init_secondary`, so its MP channel stays down; a primary's `mana_init_once` reads `init_done` through the dangling `mana_shared_data`, a use after free whose result is undefined (if the freed block still holds 1, MP init is skipped as for the secondary) | clear `mana_shared_data`/`mana_shared_mz` after the free and the local `init_done` after the secondary uninit, so that a re-probe initialises again | not executed; medium | SharedState.ReprobeAfterLastRemoveAsWritten | SharedState.ReprobeAfterLastRemove |
| drivers/net/mana/mana.c:1011-1018 | a failing `mana_map_doorbell_secondary` jumps to `failed` without `close(fd)`; on success the secondary's `priv` block is stored nowhere and never freed | a secondary probe whose doorbell `mmap` fails (fd left open), or any successful secondary probe (priv block unreachable) | close the fd on the failure path, and free `priv` (or not allocate it) on the secondary path | not executed; medium | ProbeResources.SecondaryProbeAsWrittenLeaks | ProbeResources.SecondaryProbe |
| drivers/net/mana/mana.c:888-917 | a secondary's failed memzone lookup returns -rte_errno, and `mana_init_once` acts on that value alone before locking through `mana_shared_data` | a secondary started before any primary, with rte_errno 0 after the failed lookup: `mana_init_once` goes on to lock through a NULL `mana_shared_data` | report the missing shared block as an error whatever rte_errno holds | not executed; medium | SharedState.InitWithoutZoneAsWritten | SharedState.InitWithoutZone |
