/** What mana_intr_handler does with the async events it drains: every event
    is acknowledged, and a device-fatal event raises the removal callback
    first when removal interrupts are enabled. */
module AsyncEvents {

  /** ibv_event_type, reduced to the distinction the handler makes. */
  datatype AsyncEvent = DeviceFatal | OtherEvent(code: nat)

  /** The handler's visible actions, in the order it performs them. */
  datatype IntrAction =
    | RaiseRemoval              // rte_eth_dev_callback_process(dev, RTE_ETH_EVENT_INTR_RMV, NULL)
    | Ack(event: AsyncEvent)    // ibv_ack_async_event

  /** The actions for one event read. */
  function HandleEvent(e: AsyncEvent, rmvEnabled: bool): seq<IntrAction>
  {
    (if e == DeviceFatal && rmvEnabled then [RaiseRemoval] else []) + [Ack(e)]
  }

  /** The actions for a sequence of events read in order. */
  function DrainLog(events: seq<AsyncEvent>, rmvEnabled: bool): seq<IntrAction>
    decreases |events|
  {
    if events == [] then []
    else DrainLog(events[..|events| - 1], rmvEnabled) + HandleEvent(events[|events| - 1], rmvEnabled)
  }

  /** The events acknowledged in a log, in order. */
  function Acked(log: seq<IntrAction>): seq<AsyncEvent>
    decreases |log|
  {
    if log == [] then []
    else Acked(log[..|log| - 1]) + (if log[|log| - 1].Ack? then [log[|log| - 1].event] else [])
  }

  /** The number of removal notifications in a log. */
  function Removals(log: seq<IntrAction>): nat
    decreases |log|
  {
    if log == [] then 0
    else Removals(log[..|log| - 1]) + (if log[|log| - 1] == RaiseRemoval then 1 else 0)
  }

  /** The number of device-fatal events. */
  function CountFatal(events: seq<AsyncEvent>): nat
    decreases |events|
  {
    if events == [] then 0
    else CountFatal(events[..|events| - 1]) + (if events[|events| - 1] == DeviceFatal then 1 else 0)
  }

  lemma {:induction false} AckedAppend(a: seq<IntrAction>, b: seq<IntrAction>)
    ensures Acked(a + b) == Acked(a) + Acked(b)
    ensures Removals(a + b) == Removals(a) + Removals(b)
    decreases |b|
  {
    if b == [] {
      assert a + b == a;
    } else {
      var b' := b[..|b| - 1];
      assert (a + b)[..|a + b| - 1] == a + b';
      AckedAppend(a, b');
    }
  }

  lemma {:induction false} ActionOne(a: IntrAction)
    ensures Acked([a]) == (if a.Ack? then [a.event] else [])
    ensures Removals([a]) == (if a == RaiseRemoval then 1 else 0)
  {
    assert [a][..0] == [];
  }

  /** One event's actions: it is acknowledged once, and causes at most one removal. */
  lemma {:induction false} HandleEventFacts(e: AsyncEvent, rmvEnabled: bool)
    ensures Acked(HandleEvent(e, rmvEnabled)) == [e]
    ensures Removals(HandleEvent(e, rmvEnabled)) == if e == DeviceFatal && rmvEnabled then 1 else 0
  {
    ActionOne(Ack(e));
    if e == DeviceFatal && rmvEnabled {
      ActionOne(RaiseRemoval);
      assert HandleEvent(e, rmvEnabled) == [RaiseRemoval] + [Ack(e)];
      AckedAppend([RaiseRemoval], [Ack(e)]);
    } else {
      assert HandleEvent(e, rmvEnabled) == [Ack(e)];
    }
  }

  /** Every event drained is acknowledged, exactly once and in the order read. */
  lemma {:induction false} DrainAcksEveryEvent(events: seq<AsyncEvent>, rmvEnabled: bool)
    ensures Acked(DrainLog(events, rmvEnabled)) == events
    decreases |events|
  {
    if events != [] {
      var init := events[..|events| - 1];
      var e := events[|events| - 1];
      var prev := DrainLog(init, rmvEnabled);
      var h := HandleEvent(e, rmvEnabled);
      assert DrainLog(events, rmvEnabled) == prev + h;
      assert Acked(prev + h) == init + [e] by {
        DrainAcksEveryEvent(init, rmvEnabled);
        AckedAppend(prev, h);
        HandleEventFacts(e, rmvEnabled);
      }
      assert events == init + [e];
    }
  }

  /** Removal is raised once per device-fatal event when removal interrupts
      are enabled, and never otherwise. */
  lemma {:induction false} DrainRaisesOnlyOnFatal(events: seq<AsyncEvent>, rmvEnabled: bool)
    ensures Removals(DrainLog(events, rmvEnabled)) == if rmvEnabled then CountFatal(events) else 0
    decreases |events|
  {
    if events != [] {
      var init := events[..|events| - 1];
      var e := events[|events| - 1];
      var prev := DrainLog(init, rmvEnabled);
      var h := HandleEvent(e, rmvEnabled);
      assert DrainLog(events, rmvEnabled) == prev + h;
      assert Removals(prev + h) == Removals(prev) + Removals(h) by {
        AckedAppend(prev, h);
      }
      DrainRaisesOnlyOnFatal(init, rmvEnabled);
      HandleEventFacts(e, rmvEnabled);
    }
  }

  /** Every removal notification in a log is immediately followed by the
      acknowledgement of a device-fatal event. */
  ghost predicate RemovalsAcked(log: seq<IntrAction>)
  {
    forall i :: 0 <= i < |log| && log[i] == RaiseRemoval ==> i + 1 < |log| && log[i + 1] == Ack(DeviceFatal)
  }

  /** Each removal notification is immediately followed by the acknowledgement
      of the device-fatal event that caused it. */
  lemma {:induction false} RemovalThenAck(events: seq<AsyncEvent>, rmvEnabled: bool)
    ensures RemovalsAcked(DrainLog(events, rmvEnabled))
    decreases |events|
  {
    if events != [] {
      var init := events[..|events| - 1];
      var e := events[|events| - 1];
      RemovalThenAck(init, rmvEnabled);
      var prev := DrainLog(init, rmvEnabled);
      var h := HandleEvent(e, rmvEnabled);
      var log := DrainLog(events, rmvEnabled);
      assert log == prev + h;
      forall i | 0 <= i < |log| && log[i] == RaiseRemoval
        ensures i + 1 < |log| && log[i + 1] == Ack(DeviceFatal)
      {
        if i < |prev| {
          assert prev[i] == RaiseRemoval;
          assert log[i + 1] == prev[i + 1];
        } else {
          assert h[i - |prev|] == RaiseRemoval;
        }
      }
    }
  }
}
