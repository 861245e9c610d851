/** Cross-process bookkeeping of the driver: the shared data block in a
    named memzone and the process-local mirror, the init-once guards of the
    multi-process (MP) channel, and the port counts that probe raises and
    remove lowers. The MP init/uninit calls are recorded by whether the
    channel is up; other processes' concurrent activity is not modelled. */
module SharedState {
  import opened Common

  /** rte_eal_process_type(): RTE_PROC_PRIMARY, RTE_PROC_SECONDARY, or any
      other value (RTE_PROC_AUTO, RTE_PROC_INVALID). */
  datatype ProcType = Primary | Secondary | OtherProc

  /** struct mana_shared_data, the block at the memzone's address. */
  class SharedData {
    var initDone: bool
    var primaryCnt: nat
    var secondaryCnt: nat

    /** The memset to zero after reservation. */
    constructor Zeroed()
      ensures !initDone && primaryCnt == 0 && secondaryCnt == 0
    {
      initDone := false;
      primaryCnt := 0;
      secondaryCnt := 0;
    }
  }

  /** A reserved memzone and the block at its address. */
  class Memzone {
    const addr: SharedData

    constructor(a: SharedData)
      ensures addr == a
    {
      addr := a;
    }
  }

  /** The EAL's table of named memzones, shared by all processes: the entry
      for MZ_MANA_SHARED_DATA, when one is reserved. */
  class MemzoneTable {
    var manaZone: Memzone?

    constructor()
      ensures manaZone == null
    {
      manaZone := null;
    }
  }

  /** One DPDK process's view: its role, the driver's globals mana_shared_data
      and mana_shared_mz, the mana_local_data mirror, whether its side of the MP
      channel is up, how many MP init calls it has made, and how many ports it
      has probed and not removed. */
  class Process {
    const procType: ProcType
    const memzones: MemzoneTable
    var sharedData: SharedData?
    var sharedMz: Memzone?
    var localInitDone: bool
    var localSecondaryCnt: nat
    // Specification-only state: whether each side of the MP channel is up,
    // the MP init calls made, and the ports probed and not yet removed.
    ghost var mpPrimaryUp: bool
    ghost var mpSecondaryUp: bool
    ghost var mpInitCalls: nat
    ghost var ports: nat

    /** A process before the driver's first probe: all globals zero. */
    constructor(t: ProcType, table: MemzoneTable)
      ensures procType == t && memzones == table && sharedData == null && sharedMz == null
      ensures !localInitDone && localSecondaryCnt == 0 && !mpPrimaryUp && !mpSecondaryUp
      ensures mpInitCalls == 0 && ports == 0
      ensures Valid()
    {
      procType := t;
      memzones := table;
      sharedData := null;
      sharedMz := null;
      localInitDone := false;
      localSecondaryCnt := 0;
      mpPrimaryUp := false;
      mpSecondaryUp := false;
      mpInitCalls := 0;
      ports := 0;
    }

    /** The bookkeeping is consistent: an init-done flag is set exactly while
        this process's side of the MP channel is up, the counts equal the ports
        probed, and the primary's shared pointer refers to the live memzone. */
    ghost predicate Valid()
      reads this, sharedData, sharedMz, memzones
    {
      if procType == Primary then
        !mpSecondaryUp &&
        (sharedData == null ==> !mpPrimaryUp && ports == 0) &&
        (sharedData != null ==>
           sharedMz != null && memzones.manaZone == sharedMz && sharedMz.addr == sharedData &&
           (sharedData.initDone <==> mpPrimaryUp) && sharedData.primaryCnt == ports &&
           (ports > 0 ==> sharedData.initDone))
      else
        !mpPrimaryUp && (localInitDone <==> mpSecondaryUp) && localSecondaryCnt == ports &&
        (ports > 0 ==> localInitDone) &&
        (sharedData == null ==> !localInitDone && ports == 0) &&
        (sharedData != null ==> sharedData.secondaryCnt >= localSecondaryCnt) &&
        (procType == OtherProc ==> !localInitDone && ports == 0)
    }

    /** mana_init_once has completed for this process's role. */
    predicate InitOnceDone()
      reads this, sharedData
    {
      match procType
      case Primary => sharedData != null && sharedData.initDone
      case Secondary => sharedData != null && localInitDone
      case OtherProc => false
    }
  }

  /** mana_init_shared_data. Nothing is done when the shared pointer is
      already set. A primary reserves the memzone (which fails when
      `reserveOk` is false or the name is already taken) and zeroes the block;
      any other process looks the memzone up and zeroes its local mirror.
      A failure returns -rte_errno, whatever value `rteErrno` holds then
      (0 included), and changes nothing. */
  method InitSharedData(p: Process, reserveOk: bool, rteErrno: int) returns (ret: int)
    modifies p`sharedData, p`sharedMz, p`localInitDone, p`localSecondaryCnt, p.memzones
    ensures p.sharedData != null ==> ret == 0
    ensures p.sharedData == null ==> ret == -rteErrno
    ensures old(p.sharedData) != null ==>
      ret == 0 && p.sharedData == old(p.sharedData) && unchanged(p, p.memzones)
    ensures p.sharedData == null ==> unchanged(p, p.memzones)
    ensures old(p.sharedData) == null && p.procType == Primary ==>
      (p.sharedData != null <==> reserveOk && old(p.memzones.manaZone) == null) &&
      (p.sharedData != null ==>
         fresh(p.sharedData) && fresh(p.sharedMz) && p.memzones.manaZone == p.sharedMz &&
         p.sharedMz.addr == p.sharedData && !p.sharedData.initDone &&
         p.sharedData.primaryCnt == 0 && p.sharedData.secondaryCnt == 0 &&
         p.localInitDone == old(p.localInitDone) && p.localSecondaryCnt == old(p.localSecondaryCnt))
    ensures old(p.sharedData) == null && p.procType != Primary ==>
      p.memzones.manaZone == old(p.memzones.manaZone) && p.sharedMz == old(p.sharedMz) &&
      (p.sharedData != null <==> old(p.memzones.manaZone) != null) &&
      (p.sharedData != null ==>
         p.sharedData == old(p.memzones.manaZone).addr && !p.localInitDone && p.localSecondaryCnt == 0)
    ensures old(p.Valid()) ==> p.Valid()
  {
    if p.sharedData != null {
      return 0;
    }
    if p.procType == Primary {
      if !reserveOk || p.memzones.manaZone != null {
        return -rteErrno;
      }
      var block := new SharedData.Zeroed();
      var mz := new Memzone(block);
      p.memzones.manaZone := mz;
      p.sharedMz := mz;
      p.sharedData := mz.addr;
    } else {
      var secondaryMz := p.memzones.manaZone;
      if secondaryMz == null {
        return -rteErrno;
      }
      p.sharedData := secondaryMz.addr;
      p.localInitDone := false;
      p.localSecondaryCnt := 0;
    }
    return 0;
  }

  /** The switch of mana_init_once, once mana_shared_data is set: the MP
      channel is initialised for the process's role unless that role's flag
      says it already is; the flag is set only after the init call (whose
      value is `mpInitRet`) succeeds. Any other role is refused with -EPROTO. */
  method InitMpChannel(p: Process, mpInitRet: int) returns (ret: int)
    requires p.sharedData != null
    modifies p`mpInitCalls, p`mpPrimaryUp, p`mpSecondaryUp, p`localInitDone,
             if p.procType == Primary then {p.sharedData} else {}
    ensures ret == 0 <==> p.InitOnceDone()
    ensures old(p.Valid()) ==> p.Valid()
    ensures old(p.InitOnceDone()) ==> ret == 0 && p.mpInitCalls == old(p.mpInitCalls)
    ensures p.procType == OtherProc ==> ret == -EPROTO && p.mpInitCalls == old(p.mpInitCalls)
    ensures !old(p.InitOnceDone()) && p.procType != OtherProc ==>
      p.mpInitCalls == old(p.mpInitCalls) + 1 && (ret == 0 <==> mpInitRet == 0)
    ensures p.mpInitCalls == old(p.mpInitCalls) ==>
      p.mpPrimaryUp == old(p.mpPrimaryUp) && p.mpSecondaryUp == old(p.mpSecondaryUp)
    ensures p.mpInitCalls <= old(p.mpInitCalls) + 1
  {
    var shared := p.sharedData;
    match p.procType
    case Primary =>
      if shared.initDone {
        return 0;
      }
      p.mpInitCalls := p.mpInitCalls + 1;   // mana_mp_init_primary
      ret := mpInitRet;
      if ret != 0 {
        return ret;
      }
      p.mpPrimaryUp := true;
      shared.initDone := true;
    case Secondary =>
      if p.localInitDone {
        return 0;
      }
      p.mpInitCalls := p.mpInitCalls + 1;   // mana_mp_init_secondary
      ret := mpInitRet;
      if ret != 0 {
        return ret;
      }
      p.mpSecondaryUp := true;
      p.localInitDone := true;
    case OtherProc =>
      ret := -EPROTO;
  }

  /** mana_init_once as written. When mana_init_shared_data fails with
      rte_errno 0 it returns 0 with mana_shared_data still NULL, and the
      spinlock taken next is reached through that NULL pointer: the `aborted`
      result. */
  method InitOnceAsWritten(p: Process, reserveOk: bool, rteErrno: int, mpInitRet: int)
    returns (ret: int, aborted: bool)
    modifies p, p.memzones, p.sharedData
    ensures aborted <==> p.sharedData == null && rteErrno == 0
    ensures aborted ==> ret == 0 && p.mpInitCalls == old(p.mpInitCalls)
    ensures !aborted ==> (ret == 0 <==> p.InitOnceDone())
    ensures old(p.Valid()) ==> p.Valid()
    ensures old(p.InitOnceDone()) ==>
      !aborted && ret == 0 && p.mpInitCalls == old(p.mpInitCalls) &&
      p.mpPrimaryUp == old(p.mpPrimaryUp) && p.mpSecondaryUp == old(p.mpSecondaryUp) &&
      p.sharedData == old(p.sharedData) && p.memzones.manaZone == old(p.memzones.manaZone)
    ensures old(p.sharedData) == null ==>
      (p.sharedData != null <==>
         if p.procType == Primary then reserveOk && old(p.memzones.manaZone) == null
         else old(p.memzones.manaZone) != null)
  {
    aborted := false;
    ret := InitSharedData(p, reserveOk, rteErrno);
    if ret != 0 {
      return;
    }
    if p.sharedData == null {
      aborted := true;                      // rte_spinlock_lock(&mana_shared_data->lock)
      return;
    }
    ret := InitMpChannel(p, mpInitRet);
  }

  /** mana_init_once with a missing shared block reported as an error:
      -rte_errno when that is non-zero, else -ENOENT. It succeeds exactly
      when init-once is done for the role, makes at most one MP init call and
      none when already done, sets the role's flag only when that call
      succeeds, and refuses a role other than primary or secondary. */
  method InitOnce(p: Process, reserveOk: bool, rteErrno: int, mpInitRet: int) returns (ret: int)
    modifies p, p.memzones, p.sharedData
    ensures ret == 0 <==> p.InitOnceDone()
    ensures p.sharedData == null ==>
      ret == (if rteErrno != 0 then -rteErrno else -ENOENT) && p.mpInitCalls == old(p.mpInitCalls)
    ensures old(p.Valid()) ==> p.Valid()
    ensures old(p.InitOnceDone()) ==> ret == 0 && p.mpInitCalls == old(p.mpInitCalls)
    ensures p.mpInitCalls <= old(p.mpInitCalls) + 1
    ensures p.mpInitCalls == old(p.mpInitCalls) + 1 ==> (ret == 0 <==> mpInitRet == 0)
    ensures p.procType == OtherProc ==> ret == -EPROTO || ret == -rteErrno || ret == -ENOENT
    ensures p.procType == OtherProc ==> p.mpInitCalls == old(p.mpInitCalls)
    ensures !old(p.InitOnceDone()) && p.sharedData != null && p.procType != OtherProc ==>
      p.mpInitCalls == old(p.mpInitCalls) + 1
    ensures old(p.sharedData) != null ==>
      p.sharedData == old(p.sharedData) && p.sharedMz == old(p.sharedMz) &&
      p.memzones.manaZone == old(p.memzones.manaZone)
    ensures old(p.sharedData) == null ==>
      (p.sharedData != null <==>
         if p.procType == Primary then reserveOk && old(p.memzones.manaZone) == null
         else old(p.memzones.manaZone) != null)
    ensures p.mpInitCalls == old(p.mpInitCalls) ==>
      p.mpPrimaryUp == old(p.mpPrimaryUp) && p.mpSecondaryUp == old(p.mpSecondaryUp)
    ensures p.ports == old(p.ports)
  {
    ret := InitSharedData(p, reserveOk, rteErrno);
    if ret != 0 {
      return ret;
    }
    if p.sharedData == null {
      return -ENOENT;
    }
    ret := InitMpChannel(p, mpInitRet);
  }

  /** A secondary started before any primary has reserved the shared memzone,
      with rte_errno 0 after the failed lookup: the code as written reaches
      the NULL mana_shared_data. */
  method InitWithoutZoneAsWritten(p: Process, mpInitRet: int) returns (ret: int, aborted: bool)
    requires p.Valid() && p.procType == Secondary && p.sharedData == null && p.memzones.manaZone == null
    modifies p, p.memzones
    ensures aborted && ret == 0
  {
    ret, aborted := InitOnceAsWritten(p, true, 0, mpInitRet);
  }

  /** The same start with the missing block reported: init_once fails with
      -ENOENT and no MP init call is made. */
  method InitWithoutZone(p: Process, mpInitRet: int) returns (ret: int)
    requires p.Valid() && p.procType == Secondary && p.sharedData == null && p.memzones.manaZone == null
    modifies p, p.memzones
    ensures ret == -ENOENT && p.sharedData == null && p.mpInitCalls == old(p.mpInitCalls) && p.Valid()
  {
    ret := InitOnce(p, true, 0, mpInitRet);
  }

  /** The counter update of mana_probe_port, which runs only after
      mana_init_once has succeeded; `setupRet` is the outcome of everything
      else the probe does. A primary raises primary_cnt and a secondary raises
      both its secondary_cnt copies, on success and only then. */
  method ProbePort(p: Process, setupRet: int) returns (ret: int)
    requires p.InitOnceDone()
    modifies p`localSecondaryCnt, p`ports, p.sharedData
    ensures ret == setupRet
    ensures p.sharedData == old(p.sharedData)
    ensures ret != 0 ==>
      p.ports == old(p.ports) && p.localSecondaryCnt == old(p.localSecondaryCnt) &&
      p.sharedData.primaryCnt == old(p.sharedData.primaryCnt) &&
      p.sharedData.secondaryCnt == old(p.sharedData.secondaryCnt)
    ensures ret == 0 ==> p.ports == old(p.ports) + 1
    ensures ret == 0 && p.procType == Primary ==>
      p.sharedData.primaryCnt == old(p.sharedData.primaryCnt) + 1 &&
      p.sharedData.secondaryCnt == old(p.sharedData.secondaryCnt) &&
      p.localSecondaryCnt == old(p.localSecondaryCnt)
    ensures ret == 0 && p.procType == Secondary ==>
      p.sharedData.secondaryCnt == old(p.sharedData.secondaryCnt) + 1 &&
      p.localSecondaryCnt == old(p.localSecondaryCnt) + 1 &&
      p.sharedData.primaryCnt == old(p.sharedData.primaryCnt)
    ensures p.sharedData.initDone == old(p.sharedData.initDone)
    ensures old(p.Valid()) ==> p.Valid()
  {
    ret := setupRet;
    if ret != 0 {
      return ret;
    }
    var shared := p.sharedData;
    if p.procType == Secondary {
      shared.secondaryCnt := shared.secondaryCnt + 1;
      p.localSecondaryCnt := p.localSecondaryCnt + 1;
    } else {
      shared.primaryCnt := shared.primaryCnt + 1;
    }
    p.ports := p.ports + 1;
  }

  /** mana_pci_remove as written. RTE_VERIFY's panic is the `aborted` result;
      `removeRet` is the value of rte_eth_dev_pci_generic_remove. The last
      primary detach uninitialises the MP channel and frees the memzone, yet
      mana_shared_data and init_done are left as they were; the last
      secondary detach leaves mana_local_data.init_done set. */
  method PciRemoveAsWritten(p: Process, removeRet: int) returns (ret: int, aborted: bool)
    requires p.sharedData != null
    modifies p`localSecondaryCnt, p`mpPrimaryUp, p`mpSecondaryUp, p`ports, p.sharedData, p.memzones
    ensures p.sharedData == old(p.sharedData) && p.sharedData.initDone == old(p.sharedData.initDone)
    ensures p.localInitDone == old(p.localInitDone)
    ensures p.procType == Primary ==> (aborted <==> old(p.sharedData.primaryCnt) == 0)
    ensures p.procType != Primary ==>
      (aborted <==> old(p.sharedData.secondaryCnt) == 0 || old(p.localSecondaryCnt) == 0)
    ensures p.procType == Primary && old(p.sharedData.primaryCnt) > 1 ==>
      p.mpPrimaryUp == old(p.mpPrimaryUp) && p.memzones.manaZone == old(p.memzones.manaZone)
    ensures p.procType == Primary && old(p.sharedData.primaryCnt) == 1 ==>
      !aborted && ret == removeRet && !p.mpPrimaryUp && p.memzones.manaZone == null
    ensures p.procType != Primary && old(p.sharedData.secondaryCnt) > 0 && old(p.localSecondaryCnt) == 1 ==>
      !aborted && ret == removeRet && !p.mpSecondaryUp
    ensures !aborted ==> ret == removeRet
    ensures !aborted && p.procType == Primary ==>
      p.sharedData.primaryCnt == old(p.sharedData.primaryCnt) - 1
    ensures !aborted && p.procType != Primary ==>
      p.sharedData.secondaryCnt == old(p.sharedData.secondaryCnt) - 1 &&
      p.localSecondaryCnt == old(p.localSecondaryCnt) - 1 &&
      (p.localSecondaryCnt > 0 ==> p.mpSecondaryUp == old(p.mpSecondaryUp))
    ensures old(p.Valid()) && p.procType != OtherProc && old(p.ports) == 1 ==> !p.Valid()
  {
    var shared := p.sharedData;
    if p.procType == Primary {
      if shared.primaryCnt == 0 {
        return 0, true;
      }
      shared.primaryCnt := shared.primaryCnt - 1;
      if shared.primaryCnt == 0 {
        p.mpPrimaryUp := false;            // mana_mp_uninit_primary
      }
      if shared.primaryCnt == 0 {
        p.memzones.manaZone := null;       // rte_memzone_free(mana_shared_mz)
      }
    } else {
      if shared.secondaryCnt == 0 {
        return 0, true;
      }
      shared.secondaryCnt := shared.secondaryCnt - 1;
      if p.localSecondaryCnt == 0 {
        return 0, true;
      }
      p.localSecondaryCnt := p.localSecondaryCnt - 1;
      if p.localSecondaryCnt == 0 {
        p.mpSecondaryUp := false;          // mana_mp_uninit_secondary
      }
    }
    if p.ports > 0 {
      p.ports := p.ports - 1;
    }
    return removeRet, false;
  }

  /** mana_pci_remove with the teardown completed: the last primary detach
      also clears mana_shared_data and mana_shared_mz, and the last secondary
      detach clears mana_local_data.init_done, so that each flag again says
      whether the MP channel is up. A removal of a probed port never trips
      RTE_VERIFY. */
  method PciRemove(p: Process, removeRet: int) returns (ret: int, aborted: bool)
    requires p.sharedData != null
    modifies p`sharedData, p`sharedMz, p`localInitDone, p`localSecondaryCnt,
             p`mpPrimaryUp, p`mpSecondaryUp, p`ports, p.sharedData, p.memzones
    ensures p.procType == Primary ==> (aborted <==> old(p.sharedData.primaryCnt) == 0)
    ensures p.procType != Primary ==>
      (aborted <==> old(p.sharedData.secondaryCnt) == 0 || old(p.localSecondaryCnt) == 0)
    ensures !aborted ==> ret == removeRet
    ensures !aborted && p.procType == Primary ==>
      old(p.sharedData).primaryCnt == old(p.sharedData.primaryCnt) - 1 &&
      (old(p.sharedData.primaryCnt) == 1 ==>
         !p.mpPrimaryUp && p.memzones.manaZone == null && p.sharedData == null && p.sharedMz == null) &&
      (old(p.sharedData.primaryCnt) > 1 ==>
         p.mpPrimaryUp == old(p.mpPrimaryUp) && p.sharedData == old(p.sharedData) &&
         p.memzones.manaZone == old(p.memzones.manaZone) && p.sharedMz == old(p.sharedMz))
    ensures !aborted && p.procType != Primary ==>
      old(p.sharedData).secondaryCnt == old(p.sharedData.secondaryCnt) - 1 &&
      p.localSecondaryCnt == old(p.localSecondaryCnt) - 1 &&
      (p.localSecondaryCnt == 0 ==> !p.mpSecondaryUp && !p.localInitDone) &&
      (p.localSecondaryCnt > 0 ==> p.mpSecondaryUp == old(p.mpSecondaryUp))
    ensures p.procType != Primary ==> p.sharedData == old(p.sharedData)
    ensures old(p.Valid()) && old(p.ports) > 0 ==> !aborted && p.Valid() && p.ports == old(p.ports) - 1
  {
    var shared := p.sharedData;
    if p.procType == Primary {
      if shared.primaryCnt == 0 {
        return 0, true;
      }
      shared.primaryCnt := shared.primaryCnt - 1;
      if shared.primaryCnt == 0 {
        p.mpPrimaryUp := false;            // mana_mp_uninit_primary
      }
      if shared.primaryCnt == 0 {
        p.memzones.manaZone := null;       // rte_memzone_free(mana_shared_mz)
        p.sharedMz := null;
        p.sharedData := null;
      }
    } else {
      if shared.secondaryCnt == 0 {
        return 0, true;
      }
      shared.secondaryCnt := shared.secondaryCnt - 1;
      if p.localSecondaryCnt == 0 {
        return 0, true;
      }
      p.localSecondaryCnt := p.localSecondaryCnt - 1;
      if p.localSecondaryCnt == 0 {
        p.mpSecondaryUp := false;          // mana_mp_uninit_secondary
        p.localInitDone := false;
      }
    }
    if p.ports > 0 {
      p.ports := p.ports - 1;
    }
    return removeRet, false;
  }

  /** This process's side of the MP channel is up. */
  ghost predicate MpUp(p: Process)
    reads p
  {
    if p.procType == Primary then p.mpPrimaryUp else p.mpSecondaryUp
  }

  /** Hot-unplug and re-plug of a process's only port with the code as
      written. For a secondary, the re-probe's mana_init_once succeeds without
      initialising the MP channel again, so the port comes back with the
      channel down. For a primary, the re-probe reads init_done through
      mana_shared_data, which now points into the freed memzone: a use after
      free. This model lets a freed block keep its last contents, so the read
      sees the old flag and the channel also stays down; what the C code
      reads there is undefined. */
  method ReprobeAfterLastRemoveAsWritten(p: Process, rteErrno: int, mpInitRet: int, removeRet: int)
    returns (ret: int, aborted: bool)
    requires p.Valid() && p.procType != OtherProc && p.sharedData != null && p.ports == 1
    modifies p, p.memzones, p.sharedData
    ensures !aborted && ret == 0 && p.InitOnceDone() && !MpUp(p) && p.mpInitCalls == old(p.mpInitCalls)
    ensures p.procType == Primary ==> p.sharedData == old(p.sharedData) && p.memzones.manaZone == null
  {
    var removed, removeAborted := PciRemoveAsWritten(p, removeRet);
    ret, aborted := InitOnceAsWritten(p, true, rteErrno, mpInitRet);
  }

  /** The same sequence with the completed teardown: the re-probe initialises
      the MP channel again (over a newly reserved memzone for a primary), and
      the bookkeeping stays consistent. */
  method ReprobeAfterLastRemove(p: Process, rteErrno: int, removeRet: int) returns (ret: int)
    requires p.Valid() && p.procType != OtherProc && p.sharedData != null && p.ports == 1
    modifies p, p.memzones, p.sharedData
    ensures ret == 0 && p.InitOnceDone() && MpUp(p) && p.Valid() && p.ports == 0
    ensures p.mpInitCalls == old(p.mpInitCalls) + 1
    ensures p.procType == Primary ==> p.memzones.manaZone != null && p.sharedData == p.memzones.manaZone.addr
  {
    var removed, aborted := PciRemove(p, removeRet);
    ret := InitOnce(p, true, rteErrno, 0);
  }
}
