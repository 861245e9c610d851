/** The ordering discipline of mana_dev_start and mana_dev_stop: every
    externally visible step they take, an interpreter for those steps over
    the port's abstract state, and the safety property that the fast-path
    entry points are only ever live over a fully started port. */
module FastPath {

  /** Which burst functions the port's tx_pkt_burst / rx_pkt_burst point at:
      mana_{tx,rx}_burst (Active) or mana_{tx,rx}_burst_removed (Removed). */
  datatype Burst = Active | Removed

  /** Requests sent to secondary processes through mana_mp_req_on_rxtx. */
  datatype MpRequest = StartRxTx | StopRxTx

  /** One externally visible step, with the outcome of the abstract call. */
  datatype Step =
    | InitMrBtree(ok: bool)       // mana_mr_btree_init on priv->mr_btree
    | FreeMrBtree                 // mana_mr_btree_free on priv->mr_btree
    | StartTxQueues(ok: bool)     // mana_start_tx_queues
    | StartRxQueues(ok: bool)     // mana_start_rx_queues
    | StopTxQueues(ok: bool)      // mana_stop_tx_queues
    | StopRxQueues(ok: bool)      // mana_stop_rx_queues
    | WriteBarrier                // rte_wmb
    | SetTxBurst(tx: Burst)       // dev->tx_pkt_burst = ...
    | SetRxBurst(rx: Burst)       // dev->rx_pkt_burst = ...
    | RequestSecondaries(req: MpRequest)

  /** The port state these steps change. */
  datatype PortState = PortState(mrBtree: bool, txRunning: bool, rxRunning: bool,
                                 txBurst: Burst, rxBurst: Burst)

  /** Effect of one step. A failed start leaves that direction stopped (the
      starter unwinds its own partial work); a failed stop leaves it as it was. */
  function Apply(s: PortState, step: Step): PortState
  {
    match step
    case InitMrBtree(ok) => if ok then s.(mrBtree := true) else s
    case FreeMrBtree => s.(mrBtree := false)
    case StartTxQueues(ok) => s.(txRunning := ok)
    case StartRxQueues(ok) => s.(rxRunning := ok)
    case StopTxQueues(ok) => if ok then s.(txRunning := false) else s
    case StopRxQueues(ok) => if ok then s.(rxRunning := false) else s
    case WriteBarrier => s
    case SetTxBurst(b) => s.(txBurst := b)
    case SetRxBurst(b) => s.(rxBurst := b)
    case RequestSecondaries(_) => s
  }

  /** Effect of a sequence of steps, in order. */
  function Run(s: PortState, steps: seq<Step>): PortState
    decreases |steps|
  {
    if steps == [] then s else Run(Apply(s, steps[0]), steps[1..])
  }

  /** A fast-path entry point is live only over a port whose device MR btree
      is initialised and whose TX and RX queues are both running. */
  predicate Safe(s: PortState)
  {
    (s.txBurst == Active || s.rxBurst == Active) ==> s.mrBtree && s.txRunning && s.rxRunning
  }

  /** Safe in the state before the steps and after each one of them: no
      concurrent fast-path call can observe a half-started or half-stopped port. */
  predicate SafeThroughout(s: PortState, steps: seq<Step>)
    decreases |steps|
  {
    Safe(s) && (steps != [] ==> SafeThroughout(Apply(s, steps[0]), steps[1..]))
  }

  /** Splitting a run after its first step. */
  lemma RunCons(s: PortState, step: Step, rest: seq<Step>)
    ensures Run(s, [step] + rest) == Run(Apply(s, step), rest)
    ensures SafeThroughout(s, [step] + rest) <==> Safe(s) && SafeThroughout(Apply(s, step), rest)
  {
    assert ([step] + rest)[1..] == rest;
  }

  /** Running a concatenation is running its parts in turn, and it is safe
      throughout when both parts are. */
  lemma {:induction false} RunAppend(s: PortState, a: seq<Step>, b: seq<Step>)
    ensures Run(s, a + b) == Run(Run(s, a), b)
    ensures SafeThroughout(s, a + b) <==> SafeThroughout(s, a) && SafeThroughout(Run(s, a), b)
    decreases |a|
  {
    if a == [] {
      assert a + b == b;
      assert SafeThroughout(s, b) ==> Safe(s);
    } else {
      assert a + b == [a[0]] + (a[1..] + b);
      assert a == [a[0]] + a[1..];
      RunCons(s, a[0], a[1..] + b);
      RunCons(s, a[0], a[1..]);
      RunAppend(Apply(s, a[0]), a[1..], b);
    }
  }

  /** The steps mana_dev_start takes, given the return values of the btree
      init, the TX start, the RX start and the rollback TX stop. */
  function StartSteps(btreeRet: int, txRet: int, rxRet: int, txStopRet: int): seq<Step>
  {
    if btreeRet != 0 then [InitMrBtree(false)]
    else if txRet != 0 then [InitMrBtree(true), StartTxQueues(false), FreeMrBtree]
    else if rxRet != 0 then
      [InitMrBtree(true), StartTxQueues(true), StartRxQueues(false), StopTxQueues(txStopRet == 0), FreeMrBtree]
    else
      [InitMrBtree(true), StartTxQueues(true), StartRxQueues(true), WriteBarrier,
       SetTxBurst(Active), SetRxBurst(Active), RequestSecondaries(StartRxTx)]
  }

  /** What mana_dev_start returns: the first failing call's value, else 0. */
  function StartResult(btreeRet: int, txRet: int, rxRet: int): int
  {
    if btreeRet != 0 then btreeRet else if txRet != 0 then txRet else rxRet
  }

  /** The steps mana_dev_stop takes, given the TX and RX stop results. */
  function StopSteps(txRet: int, rxRet: int): seq<Step>
  {
    [SetTxBurst(Removed), SetRxBurst(Removed), RequestSecondaries(StopRxTx), WriteBarrier,
     StopTxQueues(txRet == 0)] +
    (if txRet == 0 then [StopRxQueues(rxRet == 0)] else [])
  }

  /** What mana_dev_stop returns. */
  function StopResult(txRet: int, rxRet: int): int
  {
    if txRet != 0 then txRet else rxRet
  }

  /** A stopped port: entry points removed. */
  predicate Quiesced(s: PortState)
  {
    s.txBurst == Removed && s.rxBurst == Removed
  }

  /** Running a short list of steps one by one. */
  lemma RunOne(s: PortState, a: Step)
    ensures Run(s, [a]) == Apply(s, a)
    ensures SafeThroughout(s, [a]) <==> Safe(s) && Safe(Apply(s, a))
  {
    RunCons(s, a, []);
    assert [a] + [] == [a];
  }

  lemma RunThree(s: PortState, a: Step, b: Step, c: Step)
    ensures Run(s, [a, b, c]) == Apply(Apply(Apply(s, a), b), c)
    ensures SafeThroughout(s, [a, b, c]) <==>
      Safe(s) && Safe(Apply(s, a)) && Safe(Apply(Apply(s, a), b)) && Safe(Apply(Apply(Apply(s, a), b), c))
  {
    assert [a, b, c] == [a] + ([b] + [c]);
    RunCons(s, a, [b] + [c]);
    RunCons(Apply(s, a), b, [c]);
    RunOne(Apply(Apply(s, a), b), c);
  }

  lemma RunFive(s: PortState, a: Step, b: Step, c: Step, d: Step, e: Step)
    ensures Run(s, [a, b, c, d, e]) == Run(Apply(Apply(s, a), b), [c, d, e])
    ensures SafeThroughout(s, [a, b, c, d, e]) <==>
      Safe(s) && Safe(Apply(s, a)) && SafeThroughout(Apply(Apply(s, a), b), [c, d, e])
  {
    assert [a, b, c, d, e] == [a] + ([b] + [c, d, e]);
    RunCons(s, a, [b] + [c, d, e]);
    RunCons(Apply(s, a), b, [c, d, e]);
  }

  /** The four shapes a start can take, evaluated. */
  lemma StartRunCases(s: PortState, btreeRet: int, txRet: int, rxRet: int, txStopRet: int)
    ensures var steps := StartSteps(btreeRet, txRet, rxRet, txStopRet);
      Run(s, steps) ==
        (if btreeRet != 0 then s
         else if txRet != 0 then s.(mrBtree := false, txRunning := false)
         else if rxRet != 0 then s.(mrBtree := false, rxRunning := false, txRunning := txStopRet != 0)
         else s.(mrBtree := true, txRunning := true, rxRunning := true, txBurst := Active, rxBurst := Active)) &&
      (Quiesced(s) ==> SafeThroughout(s, steps))
  {
    var steps := StartSteps(btreeRet, txRet, rxRet, txStopRet);
    if btreeRet != 0 {
      RunOne(s, InitMrBtree(false));
    } else if txRet != 0 {
      RunThree(s, InitMrBtree(true), StartTxQueues(false), FreeMrBtree);
    } else if rxRet != 0 {
      var u := Apply(Apply(s, InitMrBtree(true)), StartTxQueues(true));
      RunFive(s, InitMrBtree(true), StartTxQueues(true), StartRxQueues(false), StopTxQueues(txStopRet == 0), FreeMrBtree);
      RunThree(u, StartRxQueues(false), StopTxQueues(txStopRet == 0), FreeMrBtree);
    } else {
      StartRunPublished(s, txStopRet);
    }
  }

  /** The successful start: everything comes up, then the entry points are
      published behind the write barrier; the btree init, both queue starts
      and the barrier all come before either burst pointer is set Active. */
  lemma StartRunPublished(s: PortState, txStopRet: int)
    ensures var steps := StartSteps(0, 0, 0, txStopRet);
      Run(s, steps) == s.(mrBtree := true, txRunning := true, rxRunning := true, txBurst := Active, rxBurst := Active) &&
      (Quiesced(s) ==> SafeThroughout(s, steps))
    ensures var steps := StartSteps(0, 0, 0, txStopRet);
      forall i, j ::
        (0 <= i < |steps| && 0 <= j < |steps| &&
         (steps[i] == InitMrBtree(true) || steps[i] == StartTxQueues(true) ||
          steps[i] == StartRxQueues(true) || steps[i] == WriteBarrier) &&
         (steps[j] == SetTxBurst(Active) || steps[j] == SetRxBurst(Active))) ==> i < j
  {
    var steps := StartSteps(0, 0, 0, txStopRet);
    var up := [InitMrBtree(true), StartTxQueues(true), StartRxQueues(true), WriteBarrier];
    var publish := [SetTxBurst(Active), SetRxBurst(Active), RequestSecondaries(StartRxTx)];
    assert steps == up + publish;
    RunAppend(s, up, publish);
    assert up == [InitMrBtree(true)] + [StartTxQueues(true), StartRxQueues(true), WriteBarrier];
    RunCons(s, InitMrBtree(true), [StartTxQueues(true), StartRxQueues(true), WriteBarrier]);
    var s1 := Apply(s, InitMrBtree(true));
    RunThree(s1, StartTxQueues(true), StartRxQueues(true), WriteBarrier);
    var u := Run(s, up);
    assert u == s.(mrBtree := true, txRunning := true, rxRunning := true);
    RunThree(u, SetTxBurst(Active), SetRxBurst(Active), RequestSecondaries(StartRxTx));
  }

  /** Start never exposes a partly started port: the entry points turn Active
      only after the btree, TX and RX are all up, and every rollback happens
      while they are still Removed. */
  lemma StartSafe(s: PortState, btreeRet: int, txRet: int, rxRet: int, txStopRet: int)
    requires Quiesced(s)
    ensures SafeThroughout(s, StartSteps(btreeRet, txRet, rxRet, txStopRet))
  {
    StartRunCases(s, btreeRet, txRet, rxRet, txStopRet);
  }

  /** The entry points end Active exactly when every start step succeeded; a
      failed start from an idle port (nothing initialised, nothing running)
      leaves it idle, provided the rollback stop itself succeeds. */
  lemma StartPublishesIffAllStarted(s: PortState, btreeRet: int, txRet: int, rxRet: int, txStopRet: int)
    requires Quiesced(s)
    ensures var e := Run(s, StartSteps(btreeRet, txRet, rxRet, txStopRet));
            (e.txBurst == Active && e.rxBurst == Active) <==> StartResult(btreeRet, txRet, rxRet) == 0
    ensures var e := Run(s, StartSteps(btreeRet, txRet, rxRet, txStopRet));
            StartResult(btreeRet, txRet, rxRet) != 0 ==> Quiesced(e)
    ensures var e := Run(s, StartSteps(btreeRet, txRet, rxRet, txStopRet));
            StartResult(btreeRet, txRet, rxRet) != 0 && !s.mrBtree && !s.txRunning && !s.rxRunning && txStopRet == 0 ==>
            e == s
    ensures var e := Run(s, StartSteps(btreeRet, txRet, rxRet, txStopRet));
            StartResult(btreeRet, txRet, rxRet) == 0 ==> e.mrBtree && e.txRunning && e.rxRunning
  {
    StartRunCases(s, btreeRet, txRet, rxRet, txStopRet);
  }

  /** Which queue starts a start attempts: none after a btree failure, and no
      RX start after a TX failure. */
  lemma StartAttempts(btreeRet: int, txRet: int, rxRet: int, txStopRet: int)
    ensures var steps := StartSteps(btreeRet, txRet, rxRet, txStopRet);
      (exists i :: 0 <= i < |steps| && steps[i].StartTxQueues?) <==> btreeRet == 0
    ensures var steps := StartSteps(btreeRet, txRet, rxRet, txStopRet);
      (exists i :: 0 <= i < |steps| && steps[i].StartRxQueues?) <==> btreeRet == 0 && txRet == 0
    ensures var steps := StartSteps(btreeRet, txRet, rxRet, txStopRet);
      (exists i :: 0 <= i < |steps| && steps[i] == FreeMrBtree) <==> btreeRet == 0 && (txRet != 0 || rxRet != 0)
    ensures var steps := StartSteps(btreeRet, txRet, rxRet, txStopRet);
      (exists i :: 0 <= i < |steps| && steps[i].StopTxQueues?) <==> btreeRet == 0 && txRet == 0 && rxRet != 0
  {
    var steps := StartSteps(btreeRet, txRet, rxRet, txStopRet);
    if btreeRet == 0 {
      assert steps[1].StartTxQueues?;
      if txRet == 0 {
        assert steps[2].StartRxQueues?;
        if rxRet != 0 {
          assert steps[3].StopTxQueues? && steps[4] == FreeMrBtree;
        }
      } else {
        assert steps[2] == FreeMrBtree;
      }
    }
  }

  /** Closed form of a stop, and its safety from any safe state: the entry
      points are Removed before any queue is torn down. */
  lemma StopRunCases(s: PortState, txRet: int, rxRet: int)
    ensures Run(s, StopSteps(txRet, rxRet)) ==
      s.(txBurst := Removed, rxBurst := Removed,
         txRunning := txRet != 0 && s.txRunning,
         rxRunning := if txRet == 0 then rxRet != 0 && s.rxRunning else s.rxRunning)
    ensures Safe(s) ==> SafeThroughout(s, StopSteps(txRet, rxRet))
  {
    var removed := [SetTxBurst(Removed), SetRxBurst(Removed), RequestSecondaries(StopRxTx)];
    var teardown := [WriteBarrier, StopTxQueues(txRet == 0)] + (if txRet == 0 then [StopRxQueues(rxRet == 0)] else []);
    assert StopSteps(txRet, rxRet) == removed + teardown;
    RunAppend(s, removed, teardown);
    RunThree(s, SetTxBurst(Removed), SetRxBurst(Removed), RequestSecondaries(StopRxTx));
    var r := Run(s, removed);
    assert Quiesced(r);
    if txRet == 0 {
      RunThree(r, WriteBarrier, StopTxQueues(true), StopRxQueues(rxRet == 0));
    } else {
      assert teardown == [WriteBarrier] + [StopTxQueues(false)];
      RunCons(r, WriteBarrier, [StopTxQueues(false)]);
      RunOne(r, StopTxQueues(false));
    }
  }

  lemma StopSafe(s: PortState, txRet: int, rxRet: int)
    requires Safe(s)
    ensures SafeThroughout(s, StopSteps(txRet, rxRet))
    ensures Quiesced(Run(s, StopSteps(txRet, rxRet)))
  {
    StopRunCases(s, txRet, rxRet);
  }

  /** Stop order: both entry points are set to Removed and the barrier issued
      before the TX stop, TX is stopped before RX, and a TX-stop failure means
      RX stop is never attempted. */
  lemma StopOrdering(txRet: int, rxRet: int)
    ensures var steps := StopSteps(txRet, rxRet);
      forall i, j ::
        (0 <= i < |steps| && 0 <= j < |steps| &&
         (steps[i] == SetTxBurst(Removed) || steps[i] == SetRxBurst(Removed) || steps[i] == WriteBarrier) &&
         (steps[j].StopTxQueues? || steps[j].StopRxQueues?)) ==> i < j
    ensures var steps := StopSteps(txRet, rxRet);
      forall i, j :: 0 <= i < |steps| && 0 <= j < |steps| && steps[i].StopTxQueues? && steps[j].StopRxQueues? ==> i < j
    ensures var steps := StopSteps(txRet, rxRet);
      (exists j :: 0 <= j < |steps| && steps[j].StopRxQueues?) <==> txRet == 0
  {
    var steps := StopSteps(txRet, rxRet);
    if txRet == 0 {
      assert steps[5].StopRxQueues?;
    }
  }
}
