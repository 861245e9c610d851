/** Collection of up to eight "mac" device arguments into a fixed array:
    mana_arg_parse_callback and mana_parse_args. Text parsing of one address
    (rte_ether_unformat_addr) is a parameter that either yields an address or
    fails; the kvargs list is given as the "mac" values it holds, in order. */
module MacArgs {
  import opened Common

  /** MAX_NUM_ADDRESS: the capacity of mana_conf.mac_array. */
  const MAX_NUM_ADDRESS: nat := 8

  /** struct rte_ether_addr. */
  datatype MacAddr = MacAddr(octets: seq<byte>)

  /** The all-zero address a zero-initialised array holds. */
  const ZeroAddr := MacAddr([0, 0, 0, 0, 0, 0])

  /** struct mana_conf. */
  class MacConf {
    const macArray: array<MacAddr>
    var index: nat

    ghost predicate Valid()
      reads this
    {
      macArray.Length == MAX_NUM_ADDRESS && index <= MAX_NUM_ADDRESS
    }

    /** `struct mana_conf conf = {0}`. */
    constructor Zeroed()
      ensures Valid() && index == 0 && fresh(macArray)
      ensures macArray[..] == seq(MAX_NUM_ADDRESS, _ => ZeroAddr)
    {
      macArray := new MacAddr[MAX_NUM_ADDRESS](_ => ZeroAddr);
      index := 0;
    }
  }

  /** What one callback returns and leaves in the array and the index. */
  datatype Outcome = Outcome(ret: int, slots: seq<MacAddr>, index: nat)

  /** One call of mana_arg_parse_callback on the array contents and index,
      given what parsing its value yields; -1 is rte_ether_unformat_addr's
      failure value. A full array is reported with 1 and left alone; a failed
      parse leaves everything alone; a parsed address goes into the next free
      slot, and only there. */
  function CallbackEffect(slots: seq<MacAddr>, index: nat, parsed: Option<MacAddr>): (r: Outcome)
    requires |slots| == MAX_NUM_ADDRESS && index <= MAX_NUM_ADDRESS
    ensures |r.slots| == MAX_NUM_ADDRESS && r.index <= MAX_NUM_ADDRESS
    ensures r.ret == 1 <==> index >= MAX_NUM_ADDRESS
    ensures r.ret == -1 <==> index < MAX_NUM_ADDRESS && parsed.None?
    ensures r.ret == 0 <==> index < MAX_NUM_ADDRESS && parsed.Some?
    ensures r.ret != 0 ==> r.slots == slots && r.index == index
    ensures r.ret == 0 ==> r.index == index + 1 && r.slots[index] == parsed.value
    ensures forall k :: 0 <= k < MAX_NUM_ADDRESS && k != index ==> r.slots[k] == slots[k]
  {
    if index >= MAX_NUM_ADDRESS then Outcome(1, slots, index)
    else if parsed.None? then Outcome(-1, slots, index)
    else Outcome(0, slots[index := parsed.value], index + 1)
  }

  /** rte_kvargs_process over the "mac" values: the callback runs on each
      value in order, and the first negative return stops the walk with -1;
      other non-zero returns are ignored. */
  function Process(slots: seq<MacAddr>, index: nat, values: seq<string>,
                   parse: string -> Option<MacAddr>): (r: Outcome)
    requires |slots| == MAX_NUM_ADDRESS && index <= MAX_NUM_ADDRESS
    ensures |r.slots| == MAX_NUM_ADDRESS
    decreases |values|
  {
    if values == [] then Outcome(0, slots, index)
    else
      var step := CallbackEffect(slots, index, parse(values[0]));
      if step.ret < 0 then Outcome(-1, step.slots, step.index)
      else Process(step.slots, step.index, values[1..], parse)
  }

  /** The walk never moves the index past the array, never lowers it, only
      writes slots between the old and the new index, and returns 0 or -1. */
  lemma {:induction false} ProcessBounds(slots: seq<MacAddr>, index: nat, values: seq<string>,
                                         parse: string -> Option<MacAddr>)
    requires |slots| == MAX_NUM_ADDRESS && index <= MAX_NUM_ADDRESS
    ensures var r := Process(slots, index, values, parse);
      |r.slots| == MAX_NUM_ADDRESS && index <= r.index <= MAX_NUM_ADDRESS &&
      (r.ret == 0 || r.ret == -1) &&
      (forall k :: 0 <= k < MAX_NUM_ADDRESS && !(index <= k < r.index) ==> r.slots[k] == slots[k])
    decreases |values|
  {
    if values != [] {
      var step := CallbackEffect(slots, index, parse(values[0]));
      if step.ret >= 0 {
        ProcessBounds(step.slots, step.index, values[1..], parse);
      }
    }
  }

  /** When every value the array has room for parses, the walk succeeds:
      the index advances by one per value until the array is full, and the
      k-th value lands in slot index + k. */
  lemma {:induction false} ProcessAllParsed(slots: seq<MacAddr>, index: nat, values: seq<string>,
                                            parse: string -> Option<MacAddr>)
    requires |slots| == MAX_NUM_ADDRESS && index <= MAX_NUM_ADDRESS
    requires forall k :: 0 <= k < |values| && index + k < MAX_NUM_ADDRESS ==> parse(values[k]).Some?
    ensures var r := Process(slots, index, values, parse);
      r.ret == 0 &&
      r.index == (if index + |values| <= MAX_NUM_ADDRESS then index + |values| else MAX_NUM_ADDRESS) &&
      forall k :: 0 <= k < |values| && index + k < MAX_NUM_ADDRESS ==> r.slots[index + k] == parse(values[k]).value
    decreases |values|
  {
    if values != [] {
      var step := CallbackEffect(slots, index, parse(values[0]));
      var rest := values[1..];
      forall k | 0 <= k < |rest| && step.index + k < MAX_NUM_ADDRESS
        ensures parse(rest[k]).Some?
      {
        assert rest[k] == values[k + 1];
      }
      ProcessAllParsed(step.slots, step.index, rest, parse);
      ProcessBounds(step.slots, step.index, rest, parse);
      var r := Process(step.slots, step.index, rest, parse);
      forall k | 0 <= k < |values| && index + k < MAX_NUM_ADDRESS
        ensures r.slots[index + k] == parse(values[k]).value
      {
        if k > 0 {
          assert values[k] == rest[k - 1];
        }
      }
    }
  }

  /** A value that does not parse while the array has room stops the walk
      with -1: the values before it are stored, the index counts exactly
      them, and no later value is looked at. */
  lemma {:induction false} ProcessStopsAtFirstFailure(slots: seq<MacAddr>, index: nat, values: seq<string>,
                                                      parse: string -> Option<MacAddr>, j: nat)
    requires |slots| == MAX_NUM_ADDRESS && index <= MAX_NUM_ADDRESS
    requires j < |values| && index + j < MAX_NUM_ADDRESS
    requires forall k :: 0 <= k < j ==> parse(values[k]).Some?
    requires parse(values[j]).None?
    ensures var r := Process(slots, index, values, parse);
      r.ret == -1 && r.index == index + j &&
      (forall k :: 0 <= k < j ==> r.slots[index + k] == parse(values[k]).value) &&
      (forall k :: index + j <= k < MAX_NUM_ADDRESS ==> r.slots[k] == slots[k])
    decreases j
  {
    var step := CallbackEffect(slots, index, parse(values[0]));
    if j > 0 {
      var rest := values[1..];
      forall k | 0 <= k < j - 1
        ensures parse(rest[k]).Some?
      {
        assert rest[k] == values[k + 1];
      }
      assert rest[j - 1] == values[j];
      ProcessStopsAtFirstFailure(step.slots, step.index, rest, parse, j - 1);
      ProcessBounds(step.slots, step.index, rest, parse);
      var r := Process(step.slots, step.index, rest, parse);
      forall k | 0 <= k < j
        ensures r.slots[index + k] == parse(values[k]).value
      {
        if k > 0 {
          assert values[k] == rest[k - 1];
        }
      }
    }
  }

  /** mana_arg_parse_callback on `conf`, with `parse` standing for
      rte_ether_unformat_addr. */
  method ArgParseCallback(conf: MacConf, val: string, parse: string -> Option<MacAddr>)
    returns (ret: int)
    requires conf.Valid()
    modifies conf`index, conf.macArray
    ensures conf.Valid()
    ensures Outcome(ret, conf.macArray[..], conf.index) ==
      CallbackEffect(old(conf.macArray[..]), old(conf.index), parse(val))
  {
    if conf.index >= MAX_NUM_ADDRESS {
      return 1;
    }
    var parsed := parse(val);
    if parsed.None? {
      return -1;
    }
    conf.macArray[conf.index] := parsed.value;
    conf.index := conf.index + 1;
    return 0;
  }

  /** mana_parse_args. `kvlist` is the result of rte_kvargs_parse: None when
      the argument string does not parse (or holds a key other than "mac"),
      else the "mac" values in order. More than eight values are refused
      with -EINVAL before the callback is run at all; otherwise the result
      is the walk of rte_kvargs_process. */
  method ParseArgs(conf: MacConf, kvlist: Option<seq<string>>, parse: string -> Option<MacAddr>)
    returns (ret: int)
    requires conf.Valid()
    modifies conf`index, conf.macArray
    ensures conf.Valid()
    ensures kvlist.None? || |kvlist.value| > MAX_NUM_ADDRESS ==>
      ret == -EINVAL && conf.index == old(conf.index) && conf.macArray[..] == old(conf.macArray[..])
    ensures kvlist.Some? && |kvlist.value| <= MAX_NUM_ADDRESS ==>
      Outcome(ret, conf.macArray[..], conf.index) ==
      Process(old(conf.macArray[..]), old(conf.index), kvlist.value, parse)
  {
    if kvlist.None? {
      return -EINVAL;
    }
    var values := kvlist.value;
    if |values| > MAX_NUM_ADDRESS {
      return -EINVAL;
    }
    ghost var spec := Process(conf.macArray[..], conf.index, values, parse);
    var i := 0;
    while i < |values|
      invariant 0 <= i <= |values|
      invariant conf.Valid()
      invariant spec == Process(conf.macArray[..], conf.index, values[i..], parse)
    {
      assert values[i..][1..] == values[i + 1..];
      var r := ArgParseCallback(conf, values[i], parse);
      if r < 0 {
        return -1;
      }
      i := i + 1;
    }
    return 0;
  }

  /** Whatever the arguments, the index stays within the array. */
  method ParseArgsInBounds(conf: MacConf, kvlist: Option<seq<string>>, parse: string -> Option<MacAddr>)
    returns (ret: int)
    requires conf.Valid()
    modifies conf`index, conf.macArray
    ensures conf.Valid() && old(conf.index) <= conf.index <= MAX_NUM_ADDRESS
    ensures ret == 0 || ret == -1 || ret == -EINVAL
  {
    if kvlist.Some? && |kvlist.value| <= MAX_NUM_ADDRESS {
      ProcessBounds(conf.macArray[..], conf.index, kvlist.value, parse);
    }
    ret := ParseArgs(conf, kvlist, parse);
  }
}
