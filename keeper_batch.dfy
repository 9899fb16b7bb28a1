/**
 * The batch-confirmation part of the gravity keeper (x/gravity/keeper/keeper_batch.go).
 *
 * An orchestrator confirms an outgoing batch by signing it; the keeper stores one record per
 * (chain, token contract, batch nonce, orchestrator) under the key `ConfirmKey`, reads single
 * records back, iterates over the records of one batch or of one chain in ascending key order,
 * and sweeps away the records of a batch once it is settled.
 *
 * The store is a `KVStore` whose `contents` the methods read and change. Each operation that
 * reads the store is specified by a function of `contents` (`GetBatchConfirm`, `Walk`,
 * `Collected`, `Swept`), and the lemmas below state what those functions promise.
 */
module KeeperBatch {
  import opened Bytes
  import opened Wrappers
  import opened Keys
  import opened Codec
  import opened Addresses
  import opened Store

  type Key = seq<byte>

  /** What the confirmation store holds: encoded records by key. */
  type State = map<Key, Wire>

  /** One call of an iteration callback: the key it was given and the decoded record. */
  datatype Visit = Visit(key: Key, confirm: Confirm)

  /** The two fields of types.InternalOutgoingTxBatch the sweep uses. */
  datatype OutgoingTxBatch = OutgoingTxBatch(batchNonce: Uint64, tokenContract: EthAddress)

  /** How an iterator decodes a stored value (k.cdc.MustUnmarshal into a pre-filled record). */
  type Decoder = Wire -> Option<Confirm>

  /** An iteration callback: returns true to stop early. */
  type Callback = (Key, Confirm) -> bool

  // ---------------------------------------------------------------------------------------
  // Single records
  // ---------------------------------------------------------------------------------------

  /** The record GetBatchConfirm decodes into: nonce and token contract known, the rest empty. */
  function LookupDefaults(addr: AddressCodec, nonce: Uint64, tokenContract: EthAddress): Confirm
  {
    Empty.(nonce := nonce, tokenContract := addr.ethHex(tokenContract))
  }

  /**
   * GetBatchConfirm: no record (Go's nil) for a malformed validator address, without looking at
   * the store, or for a missing key; otherwise the stored record decoded over the lookup
   * defaults, and a panic when it does not decode.
   */
  function GetBatchConfirm(state: State, addr: AddressCodec, chainID: ChainID, nonce: Uint64,
                           tokenContract: EthAddress, validator: AccAddress): (r: Outcome<Option<Confirm>>)
    ensures r == Ok(None) <==>
              !addr.verifyAddressFormat(validator) || ConfirmKey(chainID, tokenContract, nonce, validator) !in state
    ensures r.Panic? ==> r.fault == CorruptRecord
    ensures r.Panic? ==> Unmarshal(state[ConfirmKey(chainID, tokenContract, nonce, validator)],
                                   LookupDefaults(addr, nonce, tokenContract)).None?
  {
    if !addr.verifyAddressFormat(validator) then Ok(None)
    else
      var key := ConfirmKey(chainID, tokenContract, nonce, validator);
      if key !in state then Ok(None)
      else
        match Unmarshal(state[key], LookupDefaults(addr, nonce, tokenContract))
        case None => Panic(CorruptRecord)
        case Some(confirm) => Ok(Some(confirm))
  }

  /**
   * The key SetBatchConfirm files a record under: derived from the record's own chain id,
   * token contract, nonce and orchestrator; the orchestrator is checked before the contract.
   */
  function DeriveKey(addr: AddressCodec, batch: Confirm): (r: Outcome<Key>)
    ensures r == Panic(InvalidOrchestrator) <==> addr.accAddressFromBech32(batch.orchestrator).None?
    ensures r == Panic(InvalidTokenContract) <==>
              addr.accAddressFromBech32(batch.orchestrator).Some? && addr.newEthAddress(batch.tokenContract).None?
    ensures r.Ok? ==> r.value == ConfirmKey(batch.chainId, addr.newEthAddress(batch.tokenContract).value,
                                            batch.nonce, addr.accAddressFromBech32(batch.orchestrator).value)
  {
    match addr.accAddressFromBech32(batch.orchestrator)
    case None => Panic(InvalidOrchestrator)
    case Some(acc) =>
      match addr.newEthAddress(batch.tokenContract)
      case None => Panic(InvalidTokenContract)
      case Some(contract) => Ok(ConfirmKey(batch.chainId, contract, batch.nonce, acc))
  }

  /** SetBatchConfirm: writes the encoded record under its derived key and returns the key; panics, writing nothing, on a bad address. */
  method SetBatchConfirm(store: KVStore<Wire>, addr: AddressCodec, batch: Confirm) returns (r: Outcome<Key>)
    modifies store
    ensures r == DeriveKey(addr, batch)
    ensures r.Panic? ==> store.contents == old(store.contents)
    ensures r.Ok? ==> store.contents == old(store.contents)[r.value := Marshal(batch)]
  {
    var acc := addr.accAddressFromBech32(batch.orchestrator);
    if acc.None? {
      return Panic(InvalidOrchestrator);
    }
    var contract := addr.newEthAddress(batch.tokenContract);
    if contract.None? {
      return Panic(InvalidTokenContract);
    }
    var key := ConfirmKey(batch.chainId, contract.value, batch.nonce, acc.value);
    store.Set(key, Marshal(batch));
    return Ok(key);
  }

  /** `c` with the fields of `defaults` it leaves empty: what `c` reads back as over those defaults. */
  lemma MergeOverOwnKeyFields(c: Confirm, defaults: Confirm)
    requires defaults.nonce == c.nonce
    requires c.tokenContract != [] || defaults.tokenContract == []
    requires defaults.ethSigner == [] && defaults.orchestrator == [] && defaults.signature == []
    requires c.chainId != [] || defaults.chainId == []
    ensures Merge(c, defaults) == c
  {
  }

  /** What SetBatchConfirm writes, GetBatchConfirm reads back unchanged for the orchestrator it names. */
  lemma SetThenGet(state: State, addr: AddressCodec, batch: Confirm)
    requires Lawful(addr)
    requires DeriveKey(addr, batch).Ok?
    ensures GetBatchConfirm(state[DeriveKey(addr, batch).value := Marshal(batch)], addr, batch.chainId, batch.nonce,
                            addr.newEthAddress(batch.tokenContract).value,
                            addr.accAddressFromBech32(batch.orchestrator).value)
            == Ok(Some(batch))
  {
    var contract := addr.newEthAddress(batch.tokenContract).value;
    var defaults := LookupDefaults(addr, batch.nonce, contract);
    UnmarshalMarshal(batch, defaults);
    MergeOverOwnKeyFields(batch, defaults);
  }

  /** Writing one record leaves every lookup of another (batch, validator) pair as it was. */
  lemma SetPreservesOtherGets(state: State, addr: AddressCodec, batch: Confirm,
                              chainID: ChainID, nonce: Uint64, tokenContract: EthAddress, validator: AccAddress)
    requires DeriveKey(addr, batch).Ok?
    requires BatchId(chainID, tokenContract, nonce) != BatchId(batch.chainId, addr.newEthAddress(batch.tokenContract).value, batch.nonce)
             || validator != addr.accAddressFromBech32(batch.orchestrator).value
    ensures GetBatchConfirm(state[DeriveKey(addr, batch).value := Marshal(batch)], addr, chainID, nonce, tokenContract, validator)
         == GetBatchConfirm(state, addr, chainID, nonce, tokenContract, validator)
  {
    var written := BatchId(batch.chainId, addr.newEthAddress(batch.tokenContract).value, batch.nonce);
    var acc := addr.accAddressFromBech32(batch.orchestrator).value;
    var key := ConfirmKey(chainID, tokenContract, nonce, validator);
    var updated := state[DeriveKey(addr, batch).value := Marshal(batch)];
    assert key != DeriveKey(addr, batch).value by {
      if key == DeriveKey(addr, batch).value {
        ConfirmKeyInjective(BatchId(chainID, tokenContract, nonce), validator, written, acc);
      }
    }
    assert (key in updated <==> key in state) && (key in state ==> updated[key] == state[key]);
  }

  /** Writing the same record a second time leaves the store as the first write left it. */
  lemma SetBatchConfirmTwice(state: State, addr: AddressCodec, batch: Confirm)
    requires DeriveKey(addr, batch).Ok?
    ensures var once := state[DeriveKey(addr, batch).value := Marshal(batch)];
            once[DeriveKey(addr, batch).value := Marshal(batch)] == once
  {
  }

  // ---------------------------------------------------------------------------------------
  // Iteration
  // ---------------------------------------------------------------------------------------

  /** The keys of `state` under prefix `p`. */
  function KeysWithPrefix(state: State, p: Key): set<Key>
  {
    set k | k in state && HasPrefix(p, k)
  }

  /** The keys of `state` under prefix `p`, in the order the store iterates them. */
  ghost function OrderedKeys(state: State, p: Key): (keys: seq<Key>)
    ensures forall k :: k in keys <==> k in state && HasPrefix(p, k)
    ensures |keys| == |KeysWithPrefix(state, p)|
  {
    SortedKeysSpec(KeysWithPrefix(state, p));
    SortedKeys(KeysWithPrefix(state, p))
  }

  lemma OrderedKeysAscending(state: State, p: Key)
    ensures StrictlyAscending(OrderedKeys(state, p))
  {
    SortedKeysSpec(KeysWithPrefix(state, p));
  }

  /** The keys the store's prefix-range iterator yields are exactly the keys under the prefix. */
  lemma PrefixRangeKeys(state: State, p: Key)
    ensures KeysInRange(state, PrefixRange(p)) == KeysWithPrefix(state, p)
  {
    forall k | k in state
      ensures InRange(k, PrefixRange(p)) <==> HasPrefix(p, k)
    {
      PrefixRangeExact(p, k);
    }
  }

  /** Visits made so far, followed by the outcome of the rest of an iteration. */
  function Then(visits: seq<Visit>, rest: Outcome<seq<Visit>>): Outcome<seq<Visit>>
  {
    match rest
    case Ok(more) => Ok(visits + more)
    case Panic(f) => Panic(f)
  }

  lemma ThenNothing(rest: Outcome<seq<Visit>>)
    ensures Then([], rest) == rest
  {
    if rest.Ok? {
      assert [] + rest.value == rest.value;
    }
  }

  lemma ThenThen(a: seq<Visit>, b: seq<Visit>, rest: Outcome<seq<Visit>>)
    ensures Then(a, Then(b, rest)) == Then(a + b, rest)
  {
    if rest.Ok? {
      assert a + (b + rest.value) == (a + b) + rest.value;
    }
  }

  /**
   * The iteration loop of both iterators over `keys`, in order: each value is decoded with
   * `decode` (a panic on the first that does not decode) and handed to `cb` with its key less
   * its first `strip` bytes; the iteration stops after the first call that returns true.
   */
  function Walk(state: State, keys: seq<Key>, strip: nat, decode: Decoder, cb: Callback): (r: Outcome<seq<Visit>>)
    requires forall k :: k in keys ==> k in state && strip <= |k|
    ensures r.Panic? ==> r.fault == CorruptRecord
    ensures r.Ok? ==> |r.value| <= |keys|
    decreases |keys|
  {
    if keys == [] then Ok([])
    else
      match decode(state[keys[0]])
      case None => Panic(CorruptRecord)
      case Some(confirm) =>
        var visit := Visit(keys[0][strip..], confirm);
        if cb(visit.key, visit.confirm) then Ok([visit])
        else Then([visit], Walk(state, keys[1..], strip, decode, cb))
  }

  /**
   * The i-th visit of a walk that completes: the i-th key, less `strip` bytes, with its decoded
   * value; on every visit but the last the callback returned false.
   */
  lemma {:induction false} WalkAt(state: State, keys: seq<Key>, strip: nat, decode: Decoder, cb: Callback, i: nat)
    requires forall k :: k in keys ==> k in state && strip <= |k|
    requires Walk(state, keys, strip, decode, cb).Ok?
    requires i < |Walk(state, keys, strip, decode, cb).value|
    ensures var visits := Walk(state, keys, strip, decode, cb).value;
            && visits[i].key == keys[i][strip..]
            && decode(state[keys[i]]) == Some(visits[i].confirm)
            && (i < |visits| - 1 ==> !cb(visits[i].key, visits[i].confirm))
    decreases i
  {
    if i > 0 {
      var rest := keys[1..];
      WalkAt(state, rest, strip, decode, cb, i - 1);
      assert keys[i] == rest[i - 1];
    }
  }

  /** A walk that completes before the last key ended because the callback returned true on its last visit. */
  lemma {:induction false} WalkStops(state: State, keys: seq<Key>, strip: nat, decode: Decoder, cb: Callback)
    requires forall k :: k in keys ==> k in state && strip <= |k|
    requires Walk(state, keys, strip, decode, cb).Ok?
    requires |Walk(state, keys, strip, decode, cb).value| < |keys|
    ensures var visits := Walk(state, keys, strip, decode, cb).value;
            0 < |visits| && cb(visits[|visits| - 1].key, visits[|visits| - 1].confirm)
    decreases |keys|
  {
    var visit := Visit(keys[0][strip..], decode(state[keys[0]]).value);
    if !cb(visit.key, visit.confirm) {
      WalkStops(state, keys[1..], strip, decode, cb);
    }
  }

  /** The callback of GetBatchConfirmByNonceAndTokenContract: collect and never stop. */
  function NeverStop(key: Key, confirm: Confirm): bool
  {
    false
  }

  /** A walk that never stops completes exactly when every key's value decodes, and then visits every key. */
  lemma {:induction false} WalkToEnd(state: State, keys: seq<Key>, strip: nat, decode: Decoder)
    requires forall k :: k in keys ==> k in state && strip <= |k|
    ensures Walk(state, keys, strip, decode, NeverStop).Ok? <==>
              forall i :: 0 <= i < |keys| ==> decode(state[keys[i]]).Some?
    ensures Walk(state, keys, strip, decode, NeverStop).Ok? ==>
              |Walk(state, keys, strip, decode, NeverStop).value| == |keys|
    decreases |keys|
  {
    if keys != [] {
      var rest := keys[1..];
      WalkToEnd(state, rest, strip, decode);
      assert forall i :: 1 <= i < |keys| ==> keys[i] == rest[i - 1];
    }
  }

  /** The shared loop of the two iterators: decode, call back, stop when told to. */
  method VisitKeys(store: KVStore<Wire>, keys: seq<Key>, strip: nat, decode: Decoder, cb: Callback)
    returns (r: Outcome<seq<Visit>>)
    requires forall k :: k in keys ==> k in store.contents && strip <= |k|
    ensures r == Walk(store.contents, keys, strip, decode, cb)
  {
    var visits: seq<Visit> := [];
    var i := 0;
    assert keys[0..] == keys;
    ThenNothing(Walk(store.contents, keys, strip, decode, cb));
    while i < |keys|
      invariant 0 <= i <= |keys|
      invariant Walk(store.contents, keys, strip, decode, cb)
             == Then(visits, Walk(store.contents, keys[i..], strip, decode, cb))
    {
      assert keys[i..][0] == keys[i] && keys[i..][1..] == keys[i + 1..];
      var confirm := decode(store.contents[keys[i]]);
      if confirm.None? {
        return Panic(CorruptRecord);
      }
      var visit := Visit(keys[i][strip..], confirm.value);
      if cb(visit.key, visit.confirm) {
        return Ok(visits + [visit]);
      }
      ThenThen(visits, [visit], Walk(store.contents, keys[i + 1..], strip, decode, cb));
      visits := visits + [visit];
      i := i + 1;
    }
    assert visits + [] == visits;
    return Ok(visits);
  }

  /** Decoding over a pre-filled record. */
  function DecodeOver(defaults: Confirm): Decoder
  {
    w => Unmarshal(w, defaults)
  }

  /** The record the batch iterator decodes into: chain id, nonce and token contract known. */
  function BatchDefaults(addr: AddressCodec, chainID: ChainID, nonce: Uint64, tokenContract: EthAddress): Confirm
  {
    Empty.(chainId := chainID, nonce := nonce, tokenContract := addr.ethHex(tokenContract))
  }

  /**
   * IterateBatchConfirmByNonceAndTokenContract: walks the records of one batch in ascending key
   * order, handing the callback the full key and the record decoded over the batch defaults.
   */
  method IterateBatchConfirmByNonceAndTokenContract(store: KVStore<Wire>, addr: AddressCodec, chainID: ChainID,
                                                     nonce: Uint64, tokenContract: EthAddress, cb: Callback)
    returns (r: Outcome<seq<Visit>>)
    ensures r == Walk(store.contents, OrderedKeys(store.contents, NonceContractPrefix(chainID, tokenContract, nonce)),
                      0, DecodeOver(BatchDefaults(addr, chainID, nonce, tokenContract)), cb)
    ensures r.Ok? ==> forall i :: 0 <= i < |r.value| ==>
              r.value[i].key in store.contents && HasPrefix(NonceContractPrefix(chainID, tokenContract, nonce), r.value[i].key)
    ensures r.Ok? ==> forall i, j :: 0 <= i < j < |r.value| ==> Less(r.value[i].key, r.value[j].key)
  {
    var prefix := NonceContractPrefix(chainID, tokenContract, nonce);
    PrefixRangeKeys(store.contents, prefix);
    var keys := store.Iterator(PrefixRange(prefix));
    assert keys == OrderedKeys(store.contents, prefix);
    var decode := DecodeOver(BatchDefaults(addr, chainID, nonce, tokenContract));
    r := VisitKeys(store, keys, 0, decode, cb);
    if r.Ok? {
      VisitsUnderPrefix(store.contents, prefix, decode, cb);
    }
  }

  /**
   * IterateBatchConfirms: walks every record of one chain in ascending key order, handing the
   * callback the key less the chain prefix and the record decoded over the zero record.
   */
  method IterateBatchConfirms(store: KVStore<Wire>, chainID: ChainID, cb: Callback) returns (r: Outcome<seq<Visit>>)
    ensures r == Walk(store.contents, OrderedKeys(store.contents, ChainPrefix(chainID)), |ChainPrefix(chainID)|, DecodeOver(Empty), cb)
    ensures r.Ok? ==> forall i :: 0 <= i < |r.value| ==> ChainPrefix(chainID) + r.value[i].key in store.contents
    ensures r.Ok? ==> forall i, j :: 0 <= i < j < |r.value| ==> Less(r.value[i].key, r.value[j].key)
  {
    var prefix := ChainPrefix(chainID);
    PrefixRangeKeys(store.contents, prefix);
    var keys := store.Iterator(PrefixRange(prefix));
    assert keys == OrderedKeys(store.contents, prefix);
    r := VisitKeys(store, keys, |prefix|, DecodeOver(Empty), cb);
    if r.Ok? {
      StrippedVisitsUnderPrefix(store.contents, prefix, DecodeOver(Empty), cb);
    }
  }

  /** The keys a walk over the keys under `p` hands its callback are stored keys under `p`, in ascending order. */
  lemma VisitsUnderPrefix(state: State, p: Key, decode: Decoder, cb: Callback)
    requires Walk(state, OrderedKeys(state, p), 0, decode, cb).Ok?
    ensures var visits := Walk(state, OrderedKeys(state, p), 0, decode, cb).value;
            && (forall i :: 0 <= i < |visits| ==> visits[i].key in state && HasPrefix(p, visits[i].key))
            && (forall i, j :: 0 <= i < j < |visits| ==> Less(visits[i].key, visits[j].key))
  {
    var keys := OrderedKeys(state, p);
    var visits := Walk(state, keys, 0, decode, cb).value;
    OrderedKeysAscending(state, p);
    forall i | 0 <= i < |visits|
      ensures visits[i].key == keys[i]
    {
      WalkAt(state, keys, 0, decode, cb, i);
    }
  }

  /** The same, for a walk that strips `p` off: `p` followed by each visited key is a stored key, ascending. */
  lemma StrippedVisitsUnderPrefix(state: State, p: Key, decode: Decoder, cb: Callback)
    requires Walk(state, OrderedKeys(state, p), |p|, decode, cb).Ok?
    ensures var visits := Walk(state, OrderedKeys(state, p), |p|, decode, cb).value;
            && (forall i :: 0 <= i < |visits| ==> p + visits[i].key in state)
            && (forall i, j :: 0 <= i < j < |visits| ==> Less(visits[i].key, visits[j].key))
  {
    var keys := OrderedKeys(state, p);
    var visits := Walk(state, keys, |p|, decode, cb).value;
    OrderedKeysAscending(state, p);
    forall i | 0 <= i < |visits|
      ensures p + visits[i].key == keys[i]
    {
      WalkAt(state, keys, |p|, decode, cb, i);
      PrefixThenRest(p, keys[i]);
    }
    forall i, j | 0 <= i < j < |visits|
      ensures Less(visits[i].key, visits[j].key)
    {
      LessCommonPrefix(p, visits[i].key, visits[j].key);
    }
  }

  /** The records of a list of visits. */
  function Confirms(visits: seq<Visit>): (cs: seq<Confirm>)
    ensures |cs| == |visits|
    ensures forall i :: 0 <= i < |visits| ==> cs[i] == visits[i].confirm
  {
    seq(|visits|, i requires 0 <= i < |visits| => visits[i].confirm)
  }

  /** Every record under prefix `p`, in key order, decoded with `decode`: a walk that never stops. */
  ghost function Collect(state: State, p: Key, decode: Decoder): Outcome<seq<Confirm>>
  {
    match Walk(state, OrderedKeys(state, p), 0, decode, NeverStop)
    case Panic(f) => Panic(f)
    case Ok(visits) => Ok(Confirms(visits))
  }

  /**
   * A collection succeeds exactly when every record under the prefix decodes, and then holds one
   * record per key under the prefix, in key order, each decoded from its key's value.
   */
  lemma CollectSpec(state: State, p: Key, decode: Decoder)
    ensures Collect(state, p, decode).Ok? <==>
              forall k :: k in state && HasPrefix(p, k) ==> decode(state[k]).Some?
    ensures Collect(state, p, decode).Ok? ==>
              var cs, keys := Collect(state, p, decode).value, OrderedKeys(state, p);
              |cs| == |keys| == |KeysWithPrefix(state, p)|
              && forall i :: 0 <= i < |keys| ==> decode(state[keys[i]]) == Some(cs[i])
  {
    var keys := OrderedKeys(state, p);
    WalkToEnd(state, keys, 0, decode);
    if Collect(state, p, decode).Ok? {
      forall i | 0 <= i < |keys|
        ensures decode(state[keys[i]]) == Some(Collect(state, p, decode).value[i])
      {
        CollectAt(state, p, decode, i);
      }
    }
    assert (forall i :: 0 <= i < |keys| ==> decode(state[keys[i]]).Some?) <==>
           (forall k :: k in keys ==> decode(state[k]).Some?);
  }

  /** The record a successful collection holds at position `i`: the decoded value of the i-th key. */
  lemma CollectAt(state: State, p: Key, decode: Decoder, i: nat)
    requires Collect(state, p, decode).Ok?
    requires i < |OrderedKeys(state, p)|
    ensures |Collect(state, p, decode).value| == |OrderedKeys(state, p)|
    ensures decode(state[OrderedKeys(state, p)[i]]) == Some(Collect(state, p, decode).value[i])
  {
    var keys := OrderedKeys(state, p);
    WalkToEnd(state, keys, 0, decode);
    WalkAt(state, keys, 0, decode, NeverStop, i);
  }

  /** Collecting from a part of a state succeeds when collecting from the whole does. */
  lemma CollectPartOk(state: State, part: State, p: Key, decode: Decoder)
    requires forall k :: k in part ==> k in state && part[k] == state[k]
    requires Collect(state, p, decode).Ok?
    ensures Collect(part, p, decode).Ok?
  {
    CollectSpec(state, p, decode);
    CollectSpec(part, p, decode);
    forall k | k in part && HasPrefix(p, k)
      ensures decode(part[k]).Some?
    {
      assert k in state && part[k] == state[k];
    }
  }

  /** Collecting from a part of a state succeeds when collecting from the whole does, and finds only records found there. */
  lemma CollectSubState(state: State, part: State, p: Key, decode: Decoder)
    requires forall k :: k in part ==> k in state && part[k] == state[k]
    requires Collect(state, p, decode).Ok?
    ensures Collect(part, p, decode).Ok?
    ensures forall c :: c in Collect(part, p, decode).value ==> c in Collect(state, p, decode).value
  {
    CollectPartOk(state, part, p, decode);
    var keys0, keys1 := OrderedKeys(state, p), OrderedKeys(part, p);
    var cs0 := Collect(state, p, decode).value;
    var cs1 := Collect(part, p, decode).value;
    forall c | c in cs1
      ensures c in cs0
    {
      var j :| 0 <= j < |cs1| && cs1[j] == c;
      CollectAt(part, p, decode, j);
      var k := keys1[j];
      assert k in state && part[k] == state[k];
      assert k in keys0;
      var i :| 0 <= i < |keys0| && keys0[i] == k;
      CollectAt(state, p, decode, i);
    }
  }

  /** What GetBatchConfirmByNonceAndTokenContract returns for a state. */
  ghost function Collected(state: State, addr: AddressCodec, chainID: ChainID, nonce: Uint64,
                           tokenContract: EthAddress): Outcome<seq<Confirm>>
  {
    Collect(state, NonceContractPrefix(chainID, tokenContract, nonce), DecodeOver(BatchDefaults(addr, chainID, nonce, tokenContract)))
  }

  /** GetBatchConfirmByNonceAndTokenContract: every record of one batch, in key order. */
  method GetBatchConfirmByNonceAndTokenContract(store: KVStore<Wire>, addr: AddressCodec, chainID: ChainID,
                                                 nonce: Uint64, tokenContract: EthAddress)
    returns (r: Outcome<seq<Confirm>>)
    ensures r == Collected(store.contents, addr, chainID, nonce, tokenContract)
    ensures r.Ok? <==>
              forall k :: k in store.contents && HasPrefix(NonceContractPrefix(chainID, tokenContract, nonce), k) ==>
                Unmarshal(store.contents[k], BatchDefaults(addr, chainID, nonce, tokenContract)).Some?
    ensures r.Ok? ==> |r.value| == |KeysWithPrefix(store.contents, NonceContractPrefix(chainID, tokenContract, nonce))|
  {
    CollectSpec(store.contents, NonceContractPrefix(chainID, tokenContract, nonce), DecodeOver(BatchDefaults(addr, chainID, nonce, tokenContract)));
    var visits := IterateBatchConfirmByNonceAndTokenContract(store, addr, chainID, nonce, tokenContract, NeverStop);
    match visits
    case Panic(f) => r := Panic(f);
    case Ok(vs) => r := Ok(Confirms(vs));
  }

  // ---------------------------------------------------------------------------------------
  // Sweeping a settled batch
  // ---------------------------------------------------------------------------------------

  /**
   * The key DeleteBatchConfirms re-derives from a collected record: the batch's key for the
   * record's orchestrator, or none when the orchestrator does not parse.
   */
  function SweepKey(addr: AddressCodec, chainID: ChainID, batch: OutgoingTxBatch, c: Confirm): (r: Option<Key>)
    ensures r.Some? <==> addr.accAddressFromBech32(c.orchestrator).Some?
    ensures r.Some? ==> HasPrefix(NonceContractPrefix(chainID, batch.tokenContract, batch.batchNonce), r.value)
  {
    match addr.accAddressFromBech32(c.orchestrator)
    case None => None
    case Some(acc) =>
      ConfirmKeyPrefixes(chainID, batch.tokenContract, batch.batchNonce, acc);
      Some(ConfirmKey(chainID, batch.tokenContract, batch.batchNonce, acc))
  }

  /** The keys DeleteBatchConfirms removes for the collected records `cs`. */
  function SweepKeys(addr: AddressCodec, chainID: ChainID, batch: OutgoingTxBatch, cs: seq<Confirm>): (keys: set<Key>)
    ensures forall i :: 0 <= i < |cs| && SweepKey(addr, chainID, batch, cs[i]).Some? ==>
              SweepKey(addr, chainID, batch, cs[i]).value in keys
    ensures forall k :: k in keys ==> exists i :: 0 <= i < |cs| && SweepKey(addr, chainID, batch, cs[i]) == Some(k)
    ensures forall k :: k in keys ==> HasPrefix(NonceContractPrefix(chainID, batch.tokenContract, batch.batchNonce), k)
    decreases |cs|
  {
    if cs == [] then {}
    else
      var earlier := SweepKeys(addr, chainID, batch, cs[..|cs| - 1]);
      assert forall i :: 0 <= i < |cs| - 1 ==> cs[..|cs| - 1][i] == cs[i];
      match SweepKey(addr, chainID, batch, cs[|cs| - 1])
      case None => earlier
      case Some(key) => earlier + {key}
  }

  /** The store DeleteBatchConfirms leaves behind, or the fault it panics with. */
  ghost function Swept(state: State, addr: AddressCodec, chainID: ChainID, batch: OutgoingTxBatch): Outcome<State>
  {
    match Collected(state, addr, chainID, batch.batchNonce, batch.tokenContract)
    case Panic(f) => Panic(f)
    case Ok(cs) => Ok(state - SweepKeys(addr, chainID, batch, cs))
  }

  /**
   * DeleteBatchConfirms: collects the batch's records, then deletes the key re-derived from each
   * record whose orchestrator parses, skipping the others; a panic while collecting deletes nothing.
   */
  method DeleteBatchConfirms(store: KVStore<Wire>, addr: AddressCodec, chainID: ChainID, batch: OutgoingTxBatch)
    returns (r: Outcome<()>)
    modifies store
    ensures r.Panic? <==> Swept(old(store.contents), addr, chainID, batch).Panic?
    ensures r.Panic? ==> r.fault == CorruptRecord && store.contents == old(store.contents)
    ensures r.Ok? ==> Swept(old(store.contents), addr, chainID, batch) == Ok(store.contents)
  {
    var collected := GetBatchConfirmByNonceAndTokenContract(store, addr, chainID, batch.batchNonce, batch.tokenContract);
    if collected.Panic? {
      return Panic(collected.fault);
    }
    DeleteSweepKeys(store, addr, chainID, batch, collected.value);
    return Ok(());
  }

  /** The loop of DeleteBatchConfirms: deletes, when present, the key re-derived from each record. */
  method DeleteSweepKeys(store: KVStore<Wire>, addr: AddressCodec, chainID: ChainID, batch: OutgoingTxBatch,
                         confirms: seq<Confirm>)
    modifies store
    ensures store.contents == old(store.contents) - SweepKeys(addr, chainID, batch, confirms)
  {
    var i := 0;
    while i < |confirms|
      invariant 0 <= i <= |confirms|
      invariant store.contents == old(store.contents) - SweepKeys(addr, chainID, batch, confirms[..i])
    {
      SweepStep(old(store.contents), addr, chainID, batch, confirms, i);
      var orchestrator := addr.accAddressFromBech32(confirms[i].orchestrator);
      if orchestrator.Some? {
        var confirmKey := ConfirmKey(chainID, batch.tokenContract, batch.batchNonce, orchestrator.value);
        if store.Has(confirmKey) {
          store.Delete(confirmKey);
        }
      }
      i := i + 1;
    }
    assert confirms[..i] == confirms;
  }

  /** One step of the deletion loop: what deleting (when present) the next record's key does to the swept state. */
  lemma SweepStep(m: State, addr: AddressCodec, chainID: ChainID, batch: OutgoingTxBatch, cs: seq<Confirm>, i: nat)
    requires i < |cs|
    ensures addr.accAddressFromBech32(cs[i].orchestrator).None? ==>
              m - SweepKeys(addr, chainID, batch, cs[..i + 1]) == m - SweepKeys(addr, chainID, batch, cs[..i])
    ensures addr.accAddressFromBech32(cs[i].orchestrator).Some? ==>
              var k := ConfirmKey(chainID, batch.tokenContract, batch.batchNonce, addr.accAddressFromBech32(cs[i].orchestrator).value);
              var swept := m - SweepKeys(addr, chainID, batch, cs[..i]);
              m - SweepKeys(addr, chainID, batch, cs[..i + 1]) == if k in swept then swept - {k} else swept
  {
    SweepKeysExtend(addr, chainID, batch, cs, i);
    var s := SweepKeys(addr, chainID, batch, cs[..i]);
    match SweepKey(addr, chainID, batch, cs[i])
    case None =>
    case Some(k) => MinusOneMore(m, s, k);
  }

  /** Removing one more key `k` from `m - s`: nothing changes when `k` is already gone. */
  lemma MinusOneMore(m: State, s: set<Key>, k: Key)
    ensures (m - s) - {k} == m - (s + {k})
    ensures k !in m - s ==> m - s == m - (s + {k})
  {
  }

  /** A sweep only deletes, and only keys of the swept batch. */
  lemma SweepIsolation(state: State, addr: AddressCodec, chainID: ChainID, batch: OutgoingTxBatch, key: Key)
    requires Swept(state, addr, chainID, batch).Ok?
    requires key in state
    ensures key in Swept(state, addr, chainID, batch).value ==> Swept(state, addr, chainID, batch).value[key] == state[key]
    ensures !HasPrefix(NonceContractPrefix(chainID, batch.tokenContract, batch.batchNonce), key) ==>
              key in Swept(state, addr, chainID, batch).value
  {
  }

  /** Sweeping one batch leaves every lookup of a confirmation of another batch as it was. */
  lemma SweepLeavesOtherBatches(state: State, addr: AddressCodec, chainID: ChainID, batch: OutgoingTxBatch,
                                other: BatchId, validator: AccAddress)
    requires Swept(state, addr, chainID, batch).Ok?
    requires other != BatchId(chainID, batch.tokenContract, batch.batchNonce)
    ensures GetBatchConfirm(Swept(state, addr, chainID, batch).value, addr, other.chainID, other.nonce, other.tokenContract, validator)
         == GetBatchConfirm(state, addr, other.chainID, other.nonce, other.tokenContract, validator)
  {
    var key := ConfirmKey(other.chainID, other.tokenContract, other.nonce, validator);
    var swept := Swept(state, addr, chainID, batch).value;
    ConfirmKeyPrefixes(other.chainID, other.tokenContract, other.nonce, validator);
    if HasPrefix(NonceContractPrefix(chainID, batch.tokenContract, batch.batchNonce), key) {
      BatchPrefixesDisjoint(other, BatchId(chainID, batch.tokenContract, batch.batchNonce), key);
      assert false;
    }
    assert key in swept <==> key in state;
  }

  /** When no collected record's orchestrator parses, the sweep deletes nothing. */
  lemma SweepSkipsUnparsable(state: State, addr: AddressCodec, chainID: ChainID, batch: OutgoingTxBatch, cs: seq<Confirm>)
    requires Collected(state, addr, chainID, batch.batchNonce, batch.tokenContract) == Ok(cs)
    requires forall i :: 0 <= i < |cs| ==> addr.accAddressFromBech32(cs[i].orchestrator).None?
    ensures Swept(state, addr, chainID, batch) == Ok(state)
  {
    assert SweepKeys(addr, chainID, batch, cs) == {};
    assert state - {} == state;
  }

  /** The keys of one more record: the sweep keys of a list grow by that record's key, if its orchestrator parses. */
  lemma SweepKeysExtend(addr: AddressCodec, chainID: ChainID, batch: OutgoingTxBatch, cs: seq<Confirm>, i: nat)
    requires i < |cs|
    ensures SweepKeys(addr, chainID, batch, cs[..i + 1])
         == SweepKeys(addr, chainID, batch, cs[..i])
            + match SweepKey(addr, chainID, batch, cs[i])
              case None => {}
              case Some(key) => {key}
  {
    assert cs[..i + 1][..i] == cs[..i];
  }

  /** Fewer records, fewer keys. */
  lemma SweepKeysMonotone(addr: AddressCodec, chainID: ChainID, batch: OutgoingTxBatch, fewer: seq<Confirm>, more: seq<Confirm>)
    requires forall c :: c in fewer ==> c in more
    ensures SweepKeys(addr, chainID, batch, fewer) <= SweepKeys(addr, chainID, batch, more)
  {
    var small, big := SweepKeys(addr, chainID, batch, fewer), SweepKeys(addr, chainID, batch, more);
    forall k | k in small
      ensures k in big
    {
      var j :| 0 <= j < |fewer| && SweepKey(addr, chainID, batch, fewer[j]) == Some(k);
      assert fewer[j] in more;
      var i :| 0 <= i < |more| && more[i] == fewer[j];
    }
  }

  /** Sweeping the keys of what a second collection finds deletes nothing more. */
  lemma SweepAgain(state: State, p: Key, decode: Decoder, addr: AddressCodec, chainID: ChainID, batch: OutgoingTxBatch)
    requires Collect(state, p, decode).Ok?
    ensures var swept := state - SweepKeys(addr, chainID, batch, Collect(state, p, decode).value);
            Collect(swept, p, decode).Ok?
            && swept - SweepKeys(addr, chainID, batch, Collect(swept, p, decode).value) == swept
  {
    var cs0 := Collect(state, p, decode).value;
    var swept := state - SweepKeys(addr, chainID, batch, cs0);
    CollectSubState(state, swept, p, decode);
    var cs1 := Collect(swept, p, decode).value;
    SweepKeysMonotone(addr, chainID, batch, cs1, cs0);
    MinusSubset(state, SweepKeys(addr, chainID, batch, cs0), SweepKeys(addr, chainID, batch, cs1));
  }

  /** Removing keys already removed changes nothing. */
  lemma MinusSubset(m: State, removed: set<Key>, again: set<Key>)
    requires again <= removed
    ensures (m - removed) - again == m - removed
  {
  }

  /** A second sweep of the same batch changes nothing. */
  lemma SweepIdempotent(state: State, addr: AddressCodec, chainID: ChainID, batch: OutgoingTxBatch)
    requires Swept(state, addr, chainID, batch).Ok?
    ensures Swept(Swept(state, addr, chainID, batch).value, addr, chainID, batch) == Swept(state, addr, chainID, batch)
  {
    SweepAgain(state, NonceContractPrefix(chainID, batch.tokenContract, batch.batchNonce),
               DecodeOver(BatchDefaults(addr, chainID, batch.batchNonce, batch.tokenContract)), addr, chainID, batch);
  }

  /**
   * The record at `key` decodes over the batch defaults and its orchestrator re-derives `key`:
   * the sweep of the batch will find and delete it.
   */
  ghost predicate SelfKeyed(state: State, addr: AddressCodec, chainID: ChainID, batch: OutgoingTxBatch, key: Key)
    requires key in state
  {
    match Unmarshal(state[key], BatchDefaults(addr, chainID, batch.batchNonce, batch.tokenContract))
    case None => false
    case Some(c) =>
      match addr.accAddressFromBech32(c.orchestrator)
      case None => false
      case Some(acc) => key == ConfirmKey(chainID, batch.tokenContract, batch.batchNonce, acc)
  }

  /** A record SetBatchConfirm writes is filed under its batch's prefix and is self-keyed there. */
  lemma SetBatchConfirmSelfKeyed(state: State, addr: AddressCodec, c: Confirm)
    requires DeriveKey(addr, c).Ok?
    ensures var key := DeriveKey(addr, c).value;
            var batch := OutgoingTxBatch(c.nonce, addr.newEthAddress(c.tokenContract).value);
            HasPrefix(NonceContractPrefix(c.chainId, batch.tokenContract, c.nonce), key)
            && SelfKeyed(state[key := Marshal(c)], addr, c.chainId, batch, key)
  {
    var contract := addr.newEthAddress(c.tokenContract).value;
    var acc := addr.accAddressFromBech32(c.orchestrator).value;
    ConfirmKeyPrefixes(c.chainId, contract, c.nonce, acc);
    UnmarshalMarshal(c, BatchDefaults(addr, c.chainId, c.nonce, contract));
  }

  /**
   * A successful SetBatchConfirm keeps every record of a batch self-keyed when they all were:
   * a store filled only by SetBatchConfirm meets what SweepComplete asks for.
   */
  lemma SetBatchConfirmKeepsSelfKeyed(state: State, addr: AddressCodec, chainID: ChainID, batch: OutgoingTxBatch, c: Confirm)
    requires forall k :: k in state && HasPrefix(NonceContractPrefix(chainID, batch.tokenContract, batch.batchNonce), k) ==>
               SelfKeyed(state, addr, chainID, batch, k)
    requires DeriveKey(addr, c).Ok?
    ensures var written := state[DeriveKey(addr, c).value := Marshal(c)];
            forall k :: k in written && HasPrefix(NonceContractPrefix(chainID, batch.tokenContract, batch.batchNonce), k) ==>
              SelfKeyed(written, addr, chainID, batch, k)
  {
    var key := DeriveKey(addr, c).value;
    var written := state[key := Marshal(c)];
    var p := NonceContractPrefix(chainID, batch.tokenContract, batch.batchNonce);
    forall k | k in written && HasPrefix(p, k)
      ensures SelfKeyed(written, addr, chainID, batch, k)
    {
      if k == key {
        var contract := addr.newEthAddress(c.tokenContract).value;
        SetBatchConfirmSelfKeyed(state, addr, c);
        BatchPrefixesDisjoint(BatchId(chainID, batch.tokenContract, batch.batchNonce), BatchId(c.chainId, contract, c.nonce), k);
      } else {
        assert k in state && written[k] == state[k];
      }
    }
  }

  /**
   * When every record under the batch's prefix is self-keyed, the sweep leaves no record of the
   * batch: a later collection is empty and every lookup in the batch finds nothing.
   */
  lemma SweepComplete(state: State, addr: AddressCodec, chainID: ChainID, batch: OutgoingTxBatch)
    requires forall k :: k in state && HasPrefix(NonceContractPrefix(chainID, batch.tokenContract, batch.batchNonce), k) ==>
               SelfKeyed(state, addr, chainID, batch, k)
    ensures Swept(state, addr, chainID, batch).Ok?
    ensures Collected(Swept(state, addr, chainID, batch).value, addr, chainID, batch.batchNonce, batch.tokenContract) == Ok([])
    ensures forall validator :: GetBatchConfirm(Swept(state, addr, chainID, batch).value, addr, chainID,
                                                batch.batchNonce, batch.tokenContract, validator) == Ok(None)
  {
    var nonce, contract := batch.batchNonce, batch.tokenContract;
    var p := NonceContractPrefix(chainID, contract, nonce);
    var decode := DecodeOver(BatchDefaults(addr, chainID, nonce, contract));
    CollectSpec(state, p, decode);
    var cs := Collect(state, p, decode).value;
    var keys := OrderedKeys(state, p);
    var swept := state - SweepKeys(addr, chainID, batch, cs);
    forall k | k in state && HasPrefix(p, k)
      ensures k in SweepKeys(addr, chainID, batch, cs)
    {
      var i :| 0 <= i < |keys| && keys[i] == k;
      CollectAt(state, p, decode, i);
    }
    EmptyCollect(swept, p, decode);
    forall validator
      ensures ConfirmKey(chainID, contract, nonce, validator) !in swept
    {
      ConfirmKeyPrefixes(chainID, contract, nonce, validator);
    }
  }

  /** With no key under the prefix, a collection succeeds with nothing. */
  lemma EmptyCollect(state: State, p: Key, decode: Decoder)
    requires forall k :: k in state ==> !HasPrefix(p, k)
    ensures Collect(state, p, decode) == Ok([])
  {
    assert KeysWithPrefix(state, p) == {};
    assert OrderedKeys(state, p) == [];
  }
}
