/** RSS settings of a port: the guards and copies of mana_rss_hash_update
    and mana_rss_hash_conf_get, on values. */
module Rss {
  import opened Common

  /** Toeplitz hash key size the hardware accepts (TOEPLITZ_HASH_KEY_SIZE_IN_BYTES). */
  const TOEPLITZ_HASH_KEY_SIZE_IN_BYTES: nat := 40

  /** RTE_ETH_RSS_* bits making up MANA_ETH_RSS_SUPPORT. */
  const RSS_IPV4: bv64 := 1 << 2
  const RSS_NONFRAG_IPV4_TCP: bv64 := 1 << 4
  const RSS_NONFRAG_IPV4_UDP: bv64 := 1 << 5
  const RSS_IPV6: bv64 := 1 << 8
  const RSS_NONFRAG_IPV6_TCP: bv64 := 1 << 10
  const RSS_NONFRAG_IPV6_UDP: bv64 := 1 << 11
  const MANA_ETH_RSS_SUPPORT: bv64 :=
    RSS_IPV4 | RSS_NONFRAG_IPV4_TCP | RSS_NONFRAG_IPV4_UDP |
    RSS_IPV6 | RSS_NONFRAG_IPV6_TCP | RSS_NONFRAG_IPV6_UDP

  /** struct rte_eth_rss_conf: a key pointer (None is NULL) with the bytes it
      points at, the key length, and the hash-type bits. Used both for the
      port's stored settings (priv->rss_conf) and for the caller's struct. */
  datatype EthRssConf = EthRssConf(key: Option<seq<byte>>, keyLen: nat, hf: bv64)

  /** The port's settings as the zeroed private data starts them. */
  const InitialRssConf := EthRssConf(None, 0, 0)

  /** A caller's buffer holds at least the length it announces. */
  predicate BufferCovers(c: EthRssConf)
  {
    c.key.Some? ==> |c.key.value| >= c.keyLen
  }

  /** The stored key can be read for its announced length. */
  predicate KeyReadable(c: EthRssConf)
  {
    c.keyLen == 0 || (c.key.Some? && |c.key.value| >= c.keyLen)
  }

  /** The settings a port can hold: either no key, or exactly one hardware-size key,
      and only supported hash types. */
  predicate StoredValid(c: EthRssConf)
  {
    ((c.key.None? && c.keyLen == 0) ||
     (c.key.Some? && |c.key.value| == c.keyLen == TOEPLITZ_HASH_KEY_SIZE_IN_BYTES)) &&
    HashTypesSupported(c.hf)
  }

  /** The update carries a key: non-NULL pointer and non-zero length. */
  predicate KeySupplied(req: EthRssConf)
  {
    req.key.Some? && req.keyLen != 0
  }

  /** The hash types requested lie inside the supported mask. */
  predicate HashTypesSupported(hf: bv64)
  {
    hf & !MANA_ETH_RSS_SUPPORT == 0
  }

  /** The key bytes of a readable configuration. */
  function KeyBytes(c: EthRssConf): (b: seq<byte>)
    requires KeyReadable(c)
    ensures |b| == c.keyLen
  {
    if c.keyLen == 0 then [] else c.key.value[..c.keyLen]
  }

  /** mana_rss_hash_update as written: on an allocation failure the stored key
      length has already been overwritten and the key pointer set to NULL. */
  function RssHashUpdateAsWritten(devStarted: bool, stored: EthRssConf, req: EthRssConf,
                                  allocOk: bool): (r: (int, EthRssConf))
    requires BufferCovers(req)
    ensures r.0 == -ENOMEM ==> r.1 == stored.(keyLen := req.keyLen, key := None)
  {
    if devStarted then (-ENODEV, stored)
    else if !HashTypesSupported(req.hf) then (-EINVAL, stored)
    else if KeySupplied(req) && req.keyLen != TOEPLITZ_HASH_KEY_SIZE_IN_BYTES then (-EINVAL, stored)
    else if KeySupplied(req) && !allocOk then (-ENOMEM, stored.(keyLen := req.keyLen, key := None))
    else if KeySupplied(req) then (0, EthRssConf(Some(req.key.value[..req.keyLen]), req.keyLen, req.hf))
    else (0, stored.(hf := req.hf))
  }

  /** An allocation failure when the first key is installed leaves a stored
      length of 40 over a NULL key: the next mana_rss_hash_conf_get with a
      40-byte buffer would copy 40 bytes from NULL. */
  lemma RssHashUpdateAsWrittenLosesKey()
    ensures var req := EthRssConf(Some(seq(40, _ => 0 as byte)), 40, RSS_IPV4);
            var r := RssHashUpdateAsWritten(false, InitialRssConf, req, false);
            r.0 == -ENOMEM && r.1 != InitialRssConf && !KeyReadable(r.1) && !StoredValid(r.1)
  {
  }

  /** mana_rss_hash_update with the allocation checked before any field of
      priv->rss_conf is written, so that every rejection leaves it as it was. */
  function RssHashUpdate(devStarted: bool, stored: EthRssConf, req: EthRssConf,
                         allocOk: bool): (r: (int, EthRssConf))
    requires BufferCovers(req)
    ensures r.0 in {0, -ENODEV, -EINVAL, -ENOMEM}
    ensures r.0 == -ENODEV <==> devStarted
    ensures r.0 == -EINVAL <==>
      !devStarted &&
      (!HashTypesSupported(req.hf) || (KeySupplied(req) && req.keyLen != TOEPLITZ_HASH_KEY_SIZE_IN_BYTES))
    ensures r.0 == -ENOMEM <==> !devStarted && r.0 != -EINVAL && KeySupplied(req) && !allocOk
    ensures r.0 != 0 ==> r.1 == stored
    ensures r.0 == 0 ==> r.1.hf == req.hf
    ensures r.0 == 0 && KeySupplied(req) ==>
      r.1.key == Some(req.key.value[..req.keyLen]) && r.1.keyLen == TOEPLITZ_HASH_KEY_SIZE_IN_BYTES
    ensures r.0 == 0 && !KeySupplied(req) ==> r.1.key == stored.key && r.1.keyLen == stored.keyLen
    ensures StoredValid(stored) ==> StoredValid(r.1)
  {
    if devStarted then (-ENODEV, stored)
    else if !HashTypesSupported(req.hf) then (-EINVAL, stored)
    else if KeySupplied(req) && req.keyLen != TOEPLITZ_HASH_KEY_SIZE_IN_BYTES then (-EINVAL, stored)
    else if KeySupplied(req) && !allocOk then (-ENOMEM, stored)
    else if KeySupplied(req) then (0, EthRssConf(Some(req.key.value[..req.keyLen]), req.keyLen, req.hf))
    else (0, stored.(hf := req.hf))
  }

  /** The same incorrect request is refused identically; only the allocation
      failure differs between the code as written and the intended code. */
  lemma RssHashUpdateDiffersOnlyOnNoMem(devStarted: bool, stored: EthRssConf, req: EthRssConf,
                                        allocOk: bool)
    requires BufferCovers(req)
    ensures RssHashUpdate(devStarted, stored, req, allocOk).0 == RssHashUpdateAsWritten(devStarted, stored, req, allocOk).0
    ensures RssHashUpdate(devStarted, stored, req, allocOk).0 != -ENOMEM ==>
      RssHashUpdate(devStarted, stored, req, allocOk) == RssHashUpdateAsWritten(devStarted, stored, req, allocOk)
  {
  }

  /** mana_rss_hash_conf_get: -EINVAL for a NULL conf; otherwise the key is
      copied into the caller's buffer only when the buffer is non-NULL and at
      least as long as the stored key, and the stored length and hash types are
      always reported. */
  function RssHashConfGet(stored: EthRssConf, conf: Option<EthRssConf>): (r: (int, Option<EthRssConf>))
    requires conf.Some? && conf.value.key.Some? && conf.value.keyLen >= stored.keyLen ==> KeyReadable(stored)
    requires conf.Some? ==> BufferCovers(conf.value)
    ensures r.0 == 0 || r.0 == -EINVAL
    ensures r.0 == -EINVAL <==> conf.None?
    ensures conf.None? ==> r.1.None?
    ensures conf.Some? ==> r.1.Some? && r.1.value.keyLen == stored.keyLen && r.1.value.hf == stored.hf
    ensures conf.Some? && conf.value.key.Some? && conf.value.keyLen >= stored.keyLen ==>
      var out := r.1.value.key;
      out.Some? && |out.value| == |conf.value.key.value| &&
      out.value[..stored.keyLen] == KeyBytes(stored) &&
      out.value[stored.keyLen..] == conf.value.key.value[stored.keyLen..]
    ensures conf.Some? && !(conf.value.key.Some? && conf.value.keyLen >= stored.keyLen) ==>
      r.1.value.key == conf.value.key
  {
    if conf.None? then (-EINVAL, None)
    else
      var c := conf.value;
      var key :=
        if c.key.Some? && c.keyLen >= stored.keyLen
        then Some(KeyBytes(stored) + c.key.value[stored.keyLen..])
        else c.key;
      (0, Some(EthRssConf(key, stored.keyLen, stored.hf)))
  }

  /** The settings left by the lost-key update can still be queried where no
      key is copied: a NULL conf is refused, and a NULL caller key reports the
      stale length of 40 with the requested hash types. */
  lemma RssConfGetAfterLostKey()
    ensures var req := EthRssConf(Some(seq(40, _ => 0 as byte)), 40, RSS_IPV4);
            var s := RssHashUpdateAsWritten(false, InitialRssConf, req, false).1;
            RssHashConfGet(s, None).0 == -EINVAL &&
            RssHashConfGet(s, Some(EthRssConf(None, 0, 0))) == (0, Some(EthRssConf(None, 40, 0)))
  {
  }

  /** Round trip: after a successful update that installs a key, reading the
      settings back into a large enough buffer returns that key and the hash
      types that were set. */
  lemma RssUpdateThenGet(stored: EthRssConf, req: EthRssConf, buffer: seq<byte>)
    requires StoredValid(stored) && BufferCovers(req) && KeySupplied(req)
    requires RssHashUpdate(false, stored, req, true).0 == 0
    requires |buffer| >= TOEPLITZ_HASH_KEY_SIZE_IN_BYTES
    ensures var s := RssHashUpdate(false, stored, req, true).1;
            var g := RssHashConfGet(s, Some(EthRssConf(Some(buffer), |buffer|, 0)));
            g.0 == 0 && g.1.value.keyLen == TOEPLITZ_HASH_KEY_SIZE_IN_BYTES &&
            g.1.value.key.value[..TOEPLITZ_HASH_KEY_SIZE_IN_BYTES] == req.key.value[..req.keyLen] &&
            g.1.value.hf == req.hf
  {
    var s := RssHashUpdate(false, stored, req, true).1;
    assert KeyBytes(s) == req.key.value[..req.keyLen];
  }
}
