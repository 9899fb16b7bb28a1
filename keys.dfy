/**
 * The key builder of the batch-confirmation namespace: the full key of one confirmation, the
 * prefixes that scope iteration to one batch or to one chain, and prefixRange, the
 * [start, end) range of the ordered store that holds exactly the keys with a given prefix.
 *
 * The Go key builders (types.GetBatchConfirmKey and the others) are not part of this model;
 * the functions below follow an assumed layout of a confirmation key:
 *   BatchConfirmKey ++ BE8(|chainID|) ++ chainID ++ contract (20 bytes) ++ BE8(nonce) ++ validator
 * The chain id is modelled as length-prefixed so that no two tuples share a key; the same
 * fragment (tag, length and chain id) is the chain prefix that IterateBatchConfirms scans.
 */
module Keys {
  import opened Bytes
  import opened Wrappers

  /** An Ethereum address (types.EthAddress): its 20 raw bytes. */
  type EthAddress = s: seq<byte> | |s| == 20 witness seq(20, _ => 0)

  /** An account address of the internal chain (sdk.AccAddress). */
  type AccAddress = seq<byte>

  /** The identifier of an external chain (types.ChainID), a string. */
  type ChainID = String

  /** The namespace tag of batch confirmations in the module's store. */
  const BatchConfirmKey: seq<byte> := [0x0e]

  /** One outgoing batch: the leading fields of every confirmation key of that batch. */
  datatype BatchId = BatchId(chainID: ChainID, tokenContract: EthAddress, nonce: Uint64)

  /** chainID.Bytes(), modelled as the chain id preceded by its length. */
  function ChainIDBytes(chainID: ChainID): seq<byte>
  {
    Uint64ToBigEndian(|chainID|) + chainID
  }

  /** The prefix of all confirmation keys of one chain. */
  function ChainPrefix(chainID: ChainID): seq<byte>
  {
    BatchConfirmKey + ChainIDBytes(chainID)
  }

  /** types.GetBatchConfirmNonceContractPrefix: the prefix of all confirmation keys of one batch. */
  function NonceContractPrefix(chainID: ChainID, tokenContract: EthAddress, nonce: Uint64): seq<byte>
  {
    ChainPrefix(chainID) + tokenContract + Uint64ToBigEndian(nonce)
  }

  /** types.GetBatchConfirmKey: the key of one validator's confirmation of one batch. */
  function ConfirmKey(chainID: ChainID, tokenContract: EthAddress, nonce: Uint64, validator: AccAddress): seq<byte>
  {
    NonceContractPrefix(chainID, tokenContract, nonce) + validator
  }

  /** Reads back the batch a confirmation key (or batch prefix) belongs to; None for other keys. */
  function ParseBatchId(key: seq<byte>): Option<BatchId>
  {
    if HasPrefix(BatchConfirmKey, key) then ParseChainTail(key[|BatchConfirmKey|..]) else None
  }

  /** Reads the length-prefixed chain id, then the contract and nonce. */
  function ParseChainTail(s: seq<byte>): Option<BatchId>
  {
    if |s| < 8 then None
    else
      var len := FromBigEndian(s[..8]);
      if len >= 0x8000_0000_0000_0000 || |s| < 8 + len + 28 then None
      else ParseContractTail(s[8..8 + len], s[8 + len..])
  }

  /** Reads the 20-byte contract and the 8-byte nonce that follow the chain id. */
  function ParseContractTail(chainID: ChainID, s: seq<byte>): Option<BatchId>
  {
    if |s| < 28 then None
    else
      Pow256Of8();
      FromBigEndianBound(s[20..28]);
      Some(BatchId(chainID, s[..20], FromBigEndian(s[20..28])))
  }

  lemma PrefixSplit(a: seq<byte>, b: seq<byte>, key: seq<byte>)
    requires HasPrefix(a + b, key)
    ensures HasPrefix(a, key) && HasPrefix(b, key[|a|..])
  {
    assert key[..|a|] == (a + b)[..|a|] == a;
    assert key[|a|..][..|b|] == (a + b)[|a|..] == b;
  }

  lemma ParseContractTailOf(chainID: ChainID, tokenContract: EthAddress, nonce: Uint64, s: seq<byte>)
    requires HasPrefix(tokenContract + Uint64ToBigEndian(nonce), s)
    ensures ParseContractTail(chainID, s) == Some(BatchId(chainID, tokenContract, nonce))
  {
    PrefixSplit(tokenContract, Uint64ToBigEndian(nonce), s);
    assert s[20..28] == s[20..][..8];
  }

  lemma ParseChainTailOf(chainID: ChainID, tokenContract: EthAddress, nonce: Uint64, s: seq<byte>)
    requires HasPrefix(Uint64ToBigEndian(|chainID|) + (chainID + (tokenContract + Uint64ToBigEndian(nonce))), s)
    ensures ParseChainTail(s) == Some(BatchId(chainID, tokenContract, nonce))
  {
    var rest := tokenContract + Uint64ToBigEndian(nonce);
    PrefixSplit(Uint64ToBigEndian(|chainID|), chainID + rest, s);
    PrefixSplit(chainID, rest, s[8..]);
    assert s[8..8 + |chainID|] == s[8..][..|chainID|];
    assert s[8 + |chainID|..] == s[8..][|chainID|..];
    ParseContractTailOf(chainID, tokenContract, nonce, s[8 + |chainID|..]);
  }

  lemma NonceContractPrefixShape(chainID: ChainID, tokenContract: EthAddress, nonce: Uint64)
    ensures NonceContractPrefix(chainID, tokenContract, nonce)
         == BatchConfirmKey + (Uint64ToBigEndian(|chainID|) + (chainID + (tokenContract + Uint64ToBigEndian(nonce))))
  {
  }

  /** Every key that starts with a batch prefix names that batch. */
  lemma ParseBatchIdOfPrefix(chainID: ChainID, tokenContract: EthAddress, nonce: Uint64, key: seq<byte>)
    requires HasPrefix(NonceContractPrefix(chainID, tokenContract, nonce), key)
    ensures ParseBatchId(key) == Some(BatchId(chainID, tokenContract, nonce))
  {
    NonceContractPrefixShape(chainID, tokenContract, nonce);
    var tail := Uint64ToBigEndian(|chainID|) + (chainID + (tokenContract + Uint64ToBigEndian(nonce)));
    PrefixSplit(BatchConfirmKey, tail, key);
    ParseChainTailOf(chainID, tokenContract, nonce, key[|BatchConfirmKey|..]);
  }

  /** Two different batches have no key in common: their prefix ranges are disjoint. */
  lemma BatchPrefixesDisjoint(a: BatchId, b: BatchId, key: seq<byte>)
    requires HasPrefix(NonceContractPrefix(a.chainID, a.tokenContract, a.nonce), key)
    requires HasPrefix(NonceContractPrefix(b.chainID, b.tokenContract, b.nonce), key)
    ensures a == b
  {
    ParseBatchIdOfPrefix(a.chainID, a.tokenContract, a.nonce, key);
    ParseBatchIdOfPrefix(b.chainID, b.tokenContract, b.nonce, key);
  }

  /** The batch prefix is a byte prefix of every key of that batch, and the chain prefix of the batch prefix. */
  lemma ConfirmKeyPrefixes(chainID: ChainID, tokenContract: EthAddress, nonce: Uint64, validator: AccAddress)
    ensures HasPrefix(NonceContractPrefix(chainID, tokenContract, nonce), ConfirmKey(chainID, tokenContract, nonce, validator))
    ensures HasPrefix(ChainPrefix(chainID), NonceContractPrefix(chainID, tokenContract, nonce))
    ensures HasPrefix(ChainPrefix(chainID), ConfirmKey(chainID, tokenContract, nonce, validator))
    ensures HasPrefix(BatchConfirmKey, ConfirmKey(chainID, tokenContract, nonce, validator))
  {
    var p := NonceContractPrefix(chainID, tokenContract, nonce);
    var k := ConfirmKey(chainID, tokenContract, nonce, validator);
    var cp := ChainPrefix(chainID);
    assert k[..|p|] == p;
    assert p[..|cp|] == cp;
    assert k[..|cp|] == cp;
  }

  /** No two distinct (chain, contract, nonce, validator) tuples share a key. */
  lemma ConfirmKeyInjective(a: BatchId, v: AccAddress, b: BatchId, w: AccAddress)
    requires ConfirmKey(a.chainID, a.tokenContract, a.nonce, v) == ConfirmKey(b.chainID, b.tokenContract, b.nonce, w)
    ensures a == b && v == w
  {
    var key := ConfirmKey(a.chainID, a.tokenContract, a.nonce, v);
    ConfirmKeyPrefixes(a.chainID, a.tokenContract, a.nonce, v);
    ConfirmKeyPrefixes(b.chainID, b.tokenContract, b.nonce, w);
    BatchPrefixesDisjoint(a, b, key);
    var p := NonceContractPrefix(a.chainID, a.tokenContract, a.nonce);
    assert v == key[|p|..] == w;
  }

  lemma ConfirmKeyShape(chainID: ChainID, tokenContract: EthAddress, nonce: Uint64, validator: AccAddress)
    ensures ConfirmKey(chainID, tokenContract, nonce, validator)
         == (ChainPrefix(chainID) + tokenContract) + (Uint64ToBigEndian(nonce) + validator)
  {
  }

  /** Within one chain and contract, confirmation keys are ordered by nonce first. */
  lemma ConfirmKeyNonceOrder(chainID: ChainID, tokenContract: EthAddress, n: Uint64, v: AccAddress, m: Uint64, w: AccAddress)
    requires n < m
    ensures Less(ConfirmKey(chainID, tokenContract, n, v), ConfirmKey(chainID, tokenContract, m, w))
  {
    ConfirmKeyShape(chainID, tokenContract, n, v);
    ConfirmKeyShape(chainID, tokenContract, m, w);
    Pow256Of8();
    BigEndianMonotone(n, m, 8);
    LessAppendEqualLength(Uint64ToBigEndian(n), Uint64ToBigEndian(m), v, w);
    LessCommonPrefix(ChainPrefix(chainID) + tokenContract, Uint64ToBigEndian(n) + v, Uint64ToBigEndian(m) + w);
  }

  /** A range [start, end) of the ordered store; end None means unbounded above. */
  datatype Range = Range(start: seq<byte>, end: Option<seq<byte>>)

  predicate InRange(key: seq<byte>, r: Range)
  {
    !Less(key, r.start) && (r.end.None? || Less(key, r.end.value))
  }

  /**
   * The smallest string above every string with prefix `p`: drop trailing 0xFF bytes and
   * increment the last remaining one; None when every byte is 0xFF (no upper bound).
   */
  function PrefixEnd(p: seq<byte>): Option<seq<byte>>
    decreases |p|
  {
    if p == [] then None
    else if p[|p| - 1] == 255 then PrefixEnd(p[..|p| - 1])
    else Some(p[..|p| - 1] + [p[|p| - 1] + 1])
  }

  /** prefixRange: the store range of the keys with prefix `p`. */
  function PrefixRange(p: seq<byte>): Range
  {
    Range(p, PrefixEnd(p))
  }

  lemma NotLessTransitive(k: seq<byte>, p: seq<byte>, q: seq<byte>)
    requires !Less(k, p) && !Less(p, q)
    ensures !Less(k, q)
  {
    if Less(k, q) && p != q {
      LessTotal(p, q);
      LessTransitive(k, q, p);
    }
  }

  /** A string between q ++ [x] and q ++ [x + 1] starts with q ++ [x]. */
  lemma {:induction false} BetweenSiblings(q: seq<byte>, x: byte, k: seq<byte>)
    requires x < 255
    requires !Less(k, q + [x]) && Less(k, q + [x + 1])
    ensures HasPrefix(q + [x], k)
  {
    if q == [] {
      assert q + [x] == [x] && q + [x + 1] == [x + 1];
      assert k[..1] == [x];
    } else {
      assert (q + [x])[1..] == q[1..] + [x];
      assert (q + [x + 1])[1..] == q[1..] + [x + 1];
      BetweenSiblings(q[1..], x, k[1..]);
      assert k == [k[0]] + k[1..];
      assert (q + [x]) == [q[0]] + (q[1..] + [x]);
    }
  }

  /** A string that starts with q and is not below q ++ [0xFF] starts with q ++ [0xFF]. */
  lemma AtLeastMaxByte(q: seq<byte>, k: seq<byte>)
    requires HasPrefix(q, k) && !Less(k, q + [255])
    ensures HasPrefix(q + [255], k)
  {
    var rest := k[|q|..];
    assert k == q + rest;
    LessCommonPrefix(q, rest, [255]);
    if rest == [] {
      assert false;
    } else {
      assert rest[0] == 255;
      assert k[..|q| + 1] == q + [255];
    }
  }

  /** Every key with prefix p lies in prefixRange(p). */
  lemma {:induction false} PrefixRangeComplete(p: seq<byte>, k: seq<byte>)
    requires HasPrefix(p, k)
    ensures InRange(k, PrefixRange(p))
  {
    PrefixNotLess(p, k);
    if p != [] {
      var q, x := p[..|p| - 1], p[|p| - 1];
      assert p == q + [x];
      if x == 255 {
        assert HasPrefix(q, k) by { assert k[..|q|] == q; }
        PrefixRangeComplete(q, k);
      } else {
        var r := k[|p|..];
        assert k == q + ([x] + r);
        LessCommonPrefix(q, [x] + r, [x + 1]);
      }
    }
  }

  /** Every key in prefixRange(p) has prefix p. */
  lemma {:induction false} PrefixRangeSound(p: seq<byte>, k: seq<byte>)
    requires InRange(k, PrefixRange(p))
    ensures HasPrefix(p, k)
  {
    if p == [] {
      assert k[..0] == [];
    } else {
      var q, x := p[..|p| - 1], p[|p| - 1];
      assert p == q + [x];
      if x == 255 {
        PrefixNotLess(q, p);
        NotLessTransitive(k, p, q);
        PrefixRangeSound(q, k);
        AtLeastMaxByte(q, k);
      } else {
        BetweenSiblings(q, x, k);
      }
    }
  }

  /** prefixRange(p) holds exactly the keys that start with p. */
  lemma PrefixRangeExact(p: seq<byte>, k: seq<byte>)
    ensures InRange(k, PrefixRange(p)) <==> HasPrefix(p, k)
  {
    if HasPrefix(p, k) {
      PrefixRangeComplete(p, k);
    }
    if InRange(k, PrefixRange(p)) {
      PrefixRangeSound(p, k);
    }
  }
}
