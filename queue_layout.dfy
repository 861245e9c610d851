/** The queue-layout guard of mana_dev_configure: equal RX and TX queue
    counts, and a count that is a power of two. Queue counts are the
    uint16_t fields nb_rx_queues / nb_tx_queues, modelled as bv16. */
module QueueLayout {
  import opened Common

  /** 2^k as a 16-bit value. */
  function Bit(k: nat): bv16
    requires k < 16
  {
    (1 as bv16) << k
  }

  /** Reference meaning: n is 2^k for some k. */
  ghost predicate IsPowerOfTwo(n: bv16)
  {
    exists k: nat :: k < 16 && n == Bit(k)
  }

  /** rte_is_power_of_2 as DPDK computes it: non-zero, and clearing the
      lowest set bit leaves nothing. (DPDK takes a uint32_t; widening the
      uint16_t count adds only zero bits, so 16 bits decide the same.) */
  predicate IsPowerOfTwoBits(n: bv16)
  {
    n != 0 && n & (n - 1) == 0
  }

  /** A value passing the bit test is 2^k; the exponent is the witness. */
  lemma {:induction false} PowerOfTwoExponent(n: bv16) returns (k: nat)
    requires IsPowerOfTwoBits(n)
    ensures k < 16 && n == Bit(k)
    decreases n
  {
    if n == 1 {
      k := 0;
    } else {
      var half := n >> 1;
      assert IsPowerOfTwoBits(half) && half < n && half < 0x8000 && n == half << 1;
      var j := PowerOfTwoExponent(half);
      assert j != 15;
      k := j + 1;
      assert Bit(k) == Bit(j) << 1;
    }
  }

  /** The bit trick decides exactly the powers of two, in both directions. */
  lemma PowerOfTwoBitsCorrect(n: bv16)
    ensures IsPowerOfTwoBits(n) <==> IsPowerOfTwo(n)
  {
    if IsPowerOfTwoBits(n) {
      var k := PowerOfTwoExponent(n);
    }
  }

  /** The two checks of mana_dev_configure, in source order; 0 or -EINVAL. */
  function CheckQueueLayout(nbRxQueues: bv16, nbTxQueues: bv16): (r: int)
    ensures r == 0 || r == -EINVAL
    ensures r == 0 <==> nbRxQueues == nbTxQueues && IsPowerOfTwo(nbRxQueues)
  {
    PowerOfTwoBitsCorrect(nbRxQueues);
    if nbRxQueues != nbTxQueues then -EINVAL
    else if !IsPowerOfTwoBits(nbRxQueues) then -EINVAL
    else 0
  }
}
