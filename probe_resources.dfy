/** What the secondary-process path of mana_probe_port acquires and what it
    still holds when it returns. Each acquisition's outcome is a parameter;
    the result is the return value and the set of resources held. */
module ProbeResources {
  import opened Common

  /** The resources the secondary path acquires: the zeroed mana_priv block,
      the attached ethdev slot, the verbs command fd obtained from the
      primary, and the mapped doorbell page. */
  datatype Resource = PrivBlock | EthDevSlot | VerbsCmdFd | DoorbellPage

  /** The return value and the resources still held afterwards. */
  datatype ProbeOutcome = ProbeOutcome(ret: int, held: set<Resource>)

  /** What a successfully attached secondary port owns: its ethdev slot and
      its doorbell mapping (reached through eth_dev->process_private). */
  const SecondaryPortResources: set<Resource> := {EthDevSlot, DoorbellPage}

  /** The secondary path of mana_probe_port as written. `fd` is the value of
      mana_mp_req_verbs_cmd_fd and `procPrivRet` that of mana_proc_priv_init.
      The failed label frees priv and releases the ethdev, but a doorbell map
      failure returns without closing the fd, and on success priv is never
      stored anywhere nor freed. */
  function SecondaryProbeAsWritten(privAllocOk: bool, attachOk: bool, procPrivRet: int,
                                   fd: int, mapOk: bool): (r: ProbeOutcome)
    ensures r.ret == 0 <==> privAllocOk && attachOk && procPrivRet == 0 && fd >= 0 && mapOk
  {
    if !privAllocOk then ProbeOutcome(-ENOMEM, {})
    else if !attachOk then ProbeOutcome(-ENOMEM, {})
    else if procPrivRet != 0 then ProbeOutcome(procPrivRet, {})
    else if fd < 0 then ProbeOutcome(-ENODEV, {})
    else if !mapOk then ProbeOutcome(-ENOMEM, {VerbsCmdFd})
    else ProbeOutcome(0, {PrivBlock, EthDevSlot, DoorbellPage})
  }

  /** The code as written keeps the fd open after a failed doorbell map, and
      keeps the unreachable priv block after a successful probe. */
  lemma SecondaryProbeAsWrittenLeaks(fd: int)
    requires fd >= 0
    ensures VerbsCmdFd in SecondaryProbeAsWritten(true, true, 0, fd, false).held
    ensures SecondaryProbeAsWritten(true, true, 0, fd, false).ret == -ENOMEM
    ensures PrivBlock in SecondaryProbeAsWritten(true, true, 0, fd, true).held
    ensures SecondaryProbeAsWritten(true, true, 0, fd, true).ret == 0
  {
  }

  /** The secondary path with the fd closed on the map failure and priv freed
      once the doorbell is mapped. Every failure releases everything acquired,
      and success keeps exactly what the port owns. */
  function SecondaryProbe(privAllocOk: bool, attachOk: bool, procPrivRet: int,
                          fd: int, mapOk: bool): (r: ProbeOutcome)
    ensures r.ret == 0 <==> privAllocOk && attachOk && procPrivRet == 0 && fd >= 0 && mapOk
    ensures r.ret != 0 ==> r.held == {}
    ensures r.ret == 0 ==> r.held == SecondaryPortResources
    ensures !privAllocOk || !attachOk ==> r.ret == -ENOMEM
    ensures privAllocOk && attachOk && procPrivRet != 0 ==> r.ret == procPrivRet
    ensures privAllocOk && attachOk && procPrivRet == 0 && fd < 0 ==> r.ret == -ENODEV
    ensures privAllocOk && attachOk && procPrivRet == 0 && fd >= 0 && !mapOk ==> r.ret == -ENOMEM
  {
    if !privAllocOk then ProbeOutcome(-ENOMEM, {})
    else if !attachOk then ProbeOutcome(-ENOMEM, {})
    else if procPrivRet != 0 then ProbeOutcome(procPrivRet, {})
    else if fd < 0 then ProbeOutcome(-ENODEV, {})
    else if !mapOk then ProbeOutcome(-ENOMEM, {})
    else ProbeOutcome(0, SecondaryPortResources)
  }

  /** Both versions return the same value on every input, and differ only in
      the two leaked resources. */
  lemma SecondaryProbeDiffersOnlyInLeaks(privAllocOk: bool, attachOk: bool, procPrivRet: int,
                                         fd: int, mapOk: bool)
    ensures SecondaryProbe(privAllocOk, attachOk, procPrivRet, fd, mapOk).ret ==
            SecondaryProbeAsWritten(privAllocOk, attachOk, procPrivRet, fd, mapOk).ret
    ensures SecondaryProbe(privAllocOk, attachOk, procPrivRet, fd, mapOk).held ==
            SecondaryProbeAsWritten(privAllocOk, attachOk, procPrivRet, fd, mapOk).held - {VerbsCmdFd, PrivBlock}
  {
  }
}
